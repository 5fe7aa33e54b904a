/**
 How a landing ends (`zerith/objects.py`): exactly when it returns, where it dies, what it has then placed, and
 which temporaries it leaves.
 */
module Landings {
  import opened Options
  import opened IndexText
  import opened Pack
  import opened Coalesce
  import opened Filesystem
  import opened Objects
  import opened Transfer

  /** The files in the store that are not objects. */
  function Temps(d: Disk): set<Name> { set n | n in d.shared && !n.Obj? }

  // ---------------------------------------------------------------- one piece

  lemma {:induction false} PlacedTemp(t: Tools, d: Disk, temp: Name, g: Digest)
    requires Inv(t, d) && Permits(t, d, PlaceTemp(temp, g))
    ensures var r := Apply(Apply(d, PlaceTemp(temp, g)), Seal(g));
            r.shared == (d.shared - {temp})[Obj(g) := d.shared[temp]] && IsSealed(r, g)
  {
  }

  /** What `place_object` leaves of a temporary. */
  ghost predicate PlaceLeft(t: Tools, d: Disk, temp: Name, g: Digest, ok: bool, r: Disk)
    requires temp in d.shared && d.shared[temp] in d.inodes
  {
    && (ok <==> Obj(g) in d.shared || t.measure(d.inodes[d.shared[temp]].bytes) == g)
    && (if ok && Obj(g) !in d.shared
        then r.shared == (d.shared - {temp})[Obj(g) := d.shared[temp]] && IsSealed(r, g) else r == d)
  }

  /** `place_object` skips what is there, dies on bytes that do not measure, and else renames and seals. */
  lemma {:induction false} PlaceObjectEnds(t: Tools, d: Disk, temp: Name, g: Digest)
    requires Inv(t, d) && !temp.Obj? && temp in d.shared
    ensures PlaceLeft(t, d, temp, g, PlaceObject(t, d, temp, g).ok, Do(d, PlaceObject(t, d, temp, g)))
  {
    if Obj(g) !in d.shared && t.measure(d.inodes[d.shared[temp]].bytes) == g {
      PlacedTemp(t, d, temp, g);
      RunTwo(d, PlaceTemp(temp, g), Seal(g));
    }
  }

  lemma {:induction false} WrittenKeys(d: Disk, n: Name, bytes: Bytes)
    ensures Apply(d, WriteTemp(n, bytes)).shared.Keys == d.shared.Keys + {n}
  {
  }

  lemma {:induction false} TempsUsed(d: Disk, m: Disk, r: Disk, n: Name, g: Digest)
    requires !n.Obj? && m.shared.Keys == d.shared.Keys + {n} && r.shared.Keys == m.shared.Keys - {n} + {Obj(g)}
    ensures Temps(m) == Temps(d) + {n} && Temps(r) == Temps(d) - {n}
  {
  }

  lemma {:induction false} AfterWrite(t: Tools, d: Disk, p: Piece)
    requires Inv(t, d) && Obj(p.digest) !in d.shared
    ensures var m := Apply(d, WriteTemp(p.Temp(), p.bytes));
            var place := PlaceObject(t, m, p.Temp(), p.digest);
            && m.shared.Keys == d.shared.Keys + {p.Temp()}
            && (place.ok ==> Do(m, place).shared.Keys == m.shared.Keys - {p.Temp()} + {Obj(p.digest)})
            && (!place.ok ==> Do(m, place) == m)
  {
    var m := Apply(d, WriteTemp(p.Temp(), p.bytes));
    WrittenTemp(t, d, p.Temp(), p.bytes);
    WrittenKeys(d, p.Temp(), p.bytes);
    PlaceObjectEnds(t, m, p.Temp(), p.digest);
  }

  /** A round uses up its temporary, or dies and leaves it; when the object is there it writes none. */
  lemma {:induction false} LandPieceTemps(t: Tools, d: Disk, p: Piece)
    requires Inv(t, d)
    ensures var r := LandPiece(t, d, p);
            Temps(Do(d, r)) == if Obj(p.digest) in d.shared then Temps(d)
                               else if r.ok then Temps(d) - {p.Temp()} else Temps(d) + {p.Temp()}
  {
    if Obj(p.digest) !in d.shared {
      var w := WriteTemp(p.Temp(), p.bytes);
      var m := Apply(d, w);
      var place := PlaceObject(t, m, p.Temp(), p.digest);
      AfterWrite(t, d, p);
      RunConcat(d, [w], place.ops);
      RunOne(d, w);
      if place.ok { TempsUsed(d, m, Do(m, place), p.Temp(), p.digest); }
    }
  }

  // ------------------------------------------------------------------ a loop

  /** When the loop comes to piece `i`, its name is there by then or its bytes measure to it. */
  ghost predicate GetsPast(t: Tools, c: map<Digest, Bytes>, ps: seq<Piece>, i: nat)
    requires i < |ps|
  {
    t.measure(ps[i].bytes) == ps[i].digest || ps[i].digest in Merge(c, ps[..i])
  }

  ghost predicate AllGetPast(t: Tools, c: map<Digest, Bytes>, ps: seq<Piece>) {
    forall i: nat | i < |ps| :: GetsPast(t, c, ps, i)
  }

  lemma {:induction false} MergeStep(c: map<Digest, Bytes>, ps: seq<Piece>, i: nat)
    requires 0 < i <= |ps|
    ensures Merge(c, ps[..i]) == Merge(MergeOne(c, ps[0]), ps[1..][..i - 1])
  {
    assert ps[..i][1..] == ps[1..][..i - 1];
  }

  lemma {:induction false} GetsPastStep(t: Tools, c: map<Digest, Bytes>, ps: seq<Piece>, i: nat)
    requires 0 < i < |ps|
    ensures GetsPast(t, c, ps, i) <==> GetsPast(t, MergeOne(c, ps[0]), ps[1..], i - 1)
  {
    MergeStep(c, ps, i);
  }

  lemma {:induction false} AllGetPastStep(t: Tools, c: map<Digest, Bytes>, ps: seq<Piece>)
    requires ps != []
    ensures AllGetPast(t, c, ps) <==> GetsPast(t, c, ps, 0) && AllGetPast(t, MergeOne(c, ps[0]), ps[1..])
  {
    forall i: nat | 0 < i < |ps| ensures GetsPast(t, c, ps, i) <==> GetsPast(t, MergeOne(c, ps[0]), ps[1..], i - 1) {
      GetsPastStep(t, c, ps, i);
    }
    if AllGetPast(t, c, ps) {
      forall i: nat | i < |ps[1..]| ensures GetsPast(t, MergeOne(c, ps[0]), ps[1..], i) {
        assert GetsPast(t, c, ps, i + 1);
      }
    }
    if GetsPast(t, c, ps, 0) && AllGetPast(t, MergeOne(c, ps[0]), ps[1..]) {
      forall i: nat | i < |ps| ensures GetsPast(t, c, ps, i) {
        if i > 0 { assert GetsPast(t, MergeOne(c, ps[0]), ps[1..], i - 1); }
      }
    }
  }

  lemma {:induction false} OneRound(t: Tools, d: Disk, ps: seq<Piece>)
    requires Inv(t, d) && ps != []
    ensures var first := LandPiece(t, d, ps[0]);
            && Inv(t, Do(d, first)) && (first.ok <==> GetsPast(t, Contents(d), ps, 0))
            && Contents(Do(d, first)) == (if first.ok then MergeOne(Contents(d), ps[0]) else Contents(d))
            && (if first.ok then Temps(Do(d, first)) <= Temps(d) else Temps(Do(d, first)) == Temps(d) + {ps[0].Temp()})
  {
    LandPieceEffect(t, d, ps[0]);
    LandPieceTemps(t, d, ps[0]);
    LegalKeeps(t, d, LandPiece(t, d, ps[0]).ops);
    InContents(d, ps[0].digest);
    assert ps[..0] == [];
  }

  /** What a loop leaves that died on piece `i`: the pieces before it, and its temporary. */
  ghost predicate DiedOn(t: Tools, d: Disk, ps: seq<Piece>, r: Disk, i: nat) {
    && i < |ps| && !GetsPast(t, Contents(d), ps, i) && (forall j: nat | j < i :: GetsPast(t, Contents(d), ps, j))
    && Contents(r) == Merge(Contents(d), ps[..i])
    && ps[i].Temp() in Temps(r) && Temps(r) <= Temps(d) + {ps[i].Temp()}
  }

  /** A landing loop returns if and only if it gets past each of its pieces, whatever they are. */
  lemma {:induction false} LandPiecesExactly(t: Tools, d: Disk, ps: seq<Piece>)
    requires Inv(t, d)
    ensures LandPieces(t, d, ps).ok <==> AllGetPast(t, Contents(d), ps)
    ensures LandPieces(t, d, ps).ok ==> Temps(Do(d, LandPieces(t, d, ps))) <= Temps(d)
    decreases |ps|
  {
    if ps != [] {
      var first := LandPiece(t, d, ps[0]);
      var m := Do(d, first);
      OneRound(t, d, ps);
      AllGetPastStep(t, Contents(d), ps);
      if first.ok {
        LandPiecesExactly(t, m, ps[1..]);
        RunConcat(d, first.ops, LandPieces(t, m, ps[1..]).ops);
      }
    }
  }

  lemma {:induction false} LoopGoesOn(t: Tools, d: Disk, m: Disk, ps: seq<Piece>)
    requires ps != [] && LandPiece(t, d, ps[0]).ok && m == Do(d, LandPiece(t, d, ps[0]))
    ensures LandPieces(t, d, ps).ok == LandPieces(t, m, ps[1..]).ok
    ensures Do(d, LandPieces(t, d, ps)) == Do(m, LandPieces(t, m, ps[1..]))
  {
    RunConcat(d, LandPiece(t, d, ps[0]).ops, LandPieces(t, m, ps[1..]).ops);
  }

  lemma {:induction false} DiesAtOnce(t: Tools, d: Disk, ps: seq<Piece>)
    requires Inv(t, d) && ps != [] && !LandPiece(t, d, ps[0]).ok
    ensures DiedOn(t, d, ps, Do(d, LandPieces(t, d, ps)), 0)
  {
    OneRound(t, d, ps);
    assert ps[..0] == [];
  }

  lemma {:induction false} LivesOn(t: Tools, d: Disk, m: Disk, ps: seq<Piece>)
    requires Inv(t, d) && ps != [] && LandPiece(t, d, ps[0]).ok && m == Do(d, LandPiece(t, d, ps[0]))
    ensures Inv(t, m) && GetsPast(t, Contents(d), ps, 0) && Contents(m) == MergeOne(Contents(d), ps[0])
    ensures Temps(m) <= Temps(d)
  {
    OneRound(t, d, ps);
  }

  /** When it dies, it dies on the first it does not get past. */
  lemma {:induction false} LandPiecesDie(t: Tools, d: Disk, ps: seq<Piece>, r: Disk) returns (i: nat)
    requires Inv(t, d) && !LandPieces(t, d, ps).ok && r == Do(d, LandPieces(t, d, ps))
    ensures DiedOn(t, d, ps, r, i)
    decreases |ps|
  {
    if LandPiece(t, d, ps[0]).ok {
      var m := Do(d, LandPiece(t, d, ps[0]));
      LivesOn(t, d, m, ps);
      LoopGoesOn(t, d, m, ps);
      var k := LandPiecesDie(t, m, ps[1..], r);
      DiedLater(t, d, m, ps, r, k);
      i := k + 1;
    } else {
      DiesAtOnce(t, d, ps);
      i := 0;
    }
  }

  lemma {:induction false} DiedLater(t: Tools, d: Disk, m: Disk, ps: seq<Piece>, r: Disk, k: nat)
    requires ps != [] && GetsPast(t, Contents(d), ps, 0) && Contents(m) == MergeOne(Contents(d), ps[0])
    requires Temps(m) <= Temps(d) && DiedOn(t, m, ps[1..], r, k)
    ensures DiedOn(t, d, ps, r, k + 1)
  {
    MergeStep(Contents(d), ps, k + 1);
    GetsPastStep(t, Contents(d), ps, k + 1);
    forall j: nat | j < k + 1 ensures GetsPast(t, Contents(d), ps, j) {
      if j > 0 {
        GetsPastStep(t, Contents(d), ps, j);
        assert GetsPast(t, Contents(m), ps[1..], j - 1);
      }
    }
  }

  /** How a landing loop over `ps` ends, and what it leaves. */
  ghost predicate LoopLeft(t: Tools, d: Disk, ps: seq<Piece>, ok: bool, r: Disk) {
    && (ok <==> AllGetPast(t, Contents(d), ps))
    && (if ok then Contents(r) == Merge(Contents(d), ps) && Temps(r) <= Temps(d)
        else exists i: nat :: DiedOn(t, d, ps, r, i))
  }

  lemma {:induction false} LandPiecesEnd(t: Tools, d: Disk, ps: seq<Piece>)
    requires Inv(t, d)
    ensures LoopLeft(t, d, ps, LandPieces(t, d, ps).ok, Do(d, LandPieces(t, d, ps)))
  {
    LandPiecesEffect(t, d, ps);
    LandPiecesExactly(t, d, ps);
    if !LandPieces(t, d, ps).ok { var i := LandPiecesDie(t, d, ps, Do(d, LandPieces(t, d, ps))); }
  }

  // ------------------------------------------------------------- a fetch loop

  /** At most one temporary has come to stay: that of a piece whose bytes are not what its name says. */
  ghost predicate AtMostOneLeft(t: Tools, d: Disk, r: Disk) {
    || Temps(r) <= Temps(d)
    || exists p: Piece :: t.measure(p.bytes) != p.digest && Temps(r) <= Temps(d) + {p.Temp()}
  }

  lemma {:induction false} PiecesLeave(t: Tools, d: Disk, ps: seq<Piece>)
    requires Inv(t, d)
    ensures var p := LandPieces(t, d, ps);
            && Inv(t, Do(d, p)) && (p.ok ==> Temps(Do(d, p)) <= Temps(d)) && AtMostOneLeft(t, d, Do(d, p))
  {
    var p := LandPieces(t, d, ps);
    LandPiecesEffect(t, d, ps);
    LegalKeeps(t, d, p.ops);
    LandPiecesExactly(t, d, ps);
    if !p.ok {
      var i := LandPiecesDie(t, d, ps, Do(d, LandPieces(t, d, ps)));
      assert t.measure(ps[i].bytes) != ps[i].digest;
    }
  }

  lemma {:induction false} LeftTrans(t: Tools, d: Disk, m: Disk, r: Disk)
    requires Temps(m) <= Temps(d) && AtMostOneLeft(t, m, r)
    ensures AtMostOneLeft(t, d, r)
  {
    if !(Temps(r) <= Temps(m)) {
      var p: Piece :| t.measure(p.bytes) != p.digest && Temps(r) <= Temps(m) + {p.Temp()};
      assert Temps(r) <= Temps(d) + {p.Temp()};
    }
  }

  lemma {:induction false} RangesLeave(t: Tools, d: Disk, ranges: seq<Range>, fetch: (int, int) -> Bytes,
                                       order: seq<nat>)
    requires Inv(t, d)
    ensures var p := LandRanges(t, d, ranges, fetch, order);
            (p.ok ==> Temps(Do(d, p)) <= Temps(d)) && AtMostOneLeft(t, d, Do(d, p))
    decreases |order|
  {
    if order != [] {
      if order[0] >= |ranges| {
        RangesLeave(t, d, ranges, fetch, order[1..]);
      } else {
        var ps := RangePieces(Response(ranges, fetch, order[0]), ranges[order[0]].objs);
        var first := LandPieces(t, d, ps);
        var m := Do(d, first);
        PiecesLeave(t, d, ps);
        if first.ok {
          RangesLeave(t, m, ranges, fetch, order[1..]);
          RunConcat(d, first.ops, LandRanges(t, m, ranges, fetch, order[1..]).ops);
          LeftTrans(t, d, m, Do(m, LandRanges(t, m, ranges, fetch, order[1..])));
        }
      }
    }
  }

  /** A landing that returns leaves no temporary that was not there; one that dies leaves at most one. */
  lemma {:induction false} LandingLeaves(t: Tools, d: Disk, refs: seq<Digest>, s: Supply)
    requires Inv(t, d)
    ensures var p := LandSupply(t, d, refs, s);
            (p.ok ==> Temps(Do(d, p)) <= Temps(d)) && AtMostOneLeft(t, d, Do(d, p))
  {
    match s
    case Tree(files) => PiecesLeave(t, d, TreePieces(files));
    case Blob(text, fetch, order, gap) =>
      match HostEntries(text) {
        case None =>
        case Some(es) =>
          var ranges := Coalesced(Want(refs, Digests(d), AsMap(es)), gap);
          RangesLeave(t, d, ranges, fetch, order(|ranges|));
      }
    case Nothing =>
  }

  // ------------------------------------------------------------ any source

  /**
   What it takes to land an image's objects: from a tree, that the loop gets past each file; from a pack, that its index
   parses, that each range over what is missing comes back full, and that what is cut out of it lands; without
   either nothing will do.
   */
  ghost predicate SupplyLands(t: Tools, d: Disk, refs: seq<Digest>, s: Supply) {
    match s
    case Tree(files) => AllGetPast(t, Contents(d), TreePieces(files))
    case Blob(text, fetch, _, gap) =>
      (match HostEntries(text)
       case None => false
       case Some(es) => AllArrive(t, d, Coalesced(Want(refs, Digests(d), AsMap(es)), gap), fetch))
    case Nothing => false
  }

  /** A landing returns exactly then, in whatever order the fetches complete. */
  lemma {:induction false} LandingReturns(t: Tools, d: Disk, refs: seq<Digest>, s: Supply)
    requires Inv(t, d) && SupplyOk(s) && NoDup(refs)
    ensures LandSupply(t, d, refs, s).ok <==> SupplyLands(t, d, refs, s)
    ensures s.Nothing? ==> Do(d, LandSupply(t, d, refs, s)) == d
  {
    match s
    case Tree(files) => LandPiecesExactly(t, d, TreePieces(files));
    case Blob(text, fetch, order, gap) =>
      match HostEntries(text) {
        case None =>
        case Some(es) =>
          var want := Want(refs, Digests(d), AsMap(es));
          var ranges := Coalesced(want, gap);
          WantMembers(refs, Digests(d), AsMap(es));
          CoalesceLossless(want, gap);
          assert Completes(order(|ranges|), |ranges|);
          LandRangesReturn(t, d, ranges, fetch, order(|ranges|));
      }
    case Nothing =>
  }

  /** The names a landing brings: all of a tree's, and of a pack's those the image refers to. */
  ghost function Brought(refs: seq<Digest>, s: Supply): set<Digest> {
    if s.Blob? then Supplied(s) * Elems(refs) else Supplied(s)
  }

  lemma {:induction false} PackBrings(t: Tools, d: Disk, refs: seq<Digest>, s: Supply, g: Digest)
    requires Inv(t, d) && s.Blob? && SupplyOk(s) && LandFromPack(t, d, refs, s).ok
    requires Obj(g) in Do(d, LandFromPack(t, d, refs, s)).shared
    ensures Obj(g) in d.shared || g in Brought(refs, s)
  {
    var es := HostEntries(s.indexText).value;
    var want := Want(refs, Digests(d), AsMap(es));
    var ranges := Coalesced(want, s.gap);
    var order := s.order(|ranges|);
    assert Completes(s.order(|ranges|), |ranges|);
    CompleteMeansFull(t, d, ranges, s.fetch, order);
    MergeHas(Contents(d), PiecesFor(ranges, s.fetch, order), g);
    InContents(d, g);
    InContents(Do(d, LandRanges(t, d, ranges, s.fetch, order)), g);
    if Obj(g) !in d.shared {
      var p :| p in PiecesFor(ranges, s.fetch, order) && p.digest == g;
      PieceIsWanted(want, s.gap, s.fetch, order, p);
      WantMembers(refs, Digests(d), AsMap(es));
    }
  }

  lemma {:induction false} TreeBrings(t: Tools, d: Disk, files: seq<(Digest, Bytes)>, g: Digest)
    requires Inv(t, d) && LandPieces(t, d, TreePieces(files)).ok
    requires Obj(g) in Do(d, LandPieces(t, d, TreePieces(files))).shared
    ensures Obj(g) in d.shared || g in Supplied(Tree(files))
  {
    var ps := TreePieces(files);
    LandPiecesEffect(t, d, ps);
    MergeHas(Contents(d), ps, g);
    InContents(d, g);
    InContents(Do(d, LandPieces(t, d, ps)), g);
    if Obj(g) !in d.shared {
      var p :| p in ps && p.digest == g;
      var i :| 0 <= i < |ps| && ps[i] == p;
      assert files[i] in files;
    }
  }

  lemma {:induction false} BroughtIsThere(t: Tools, d: Disk, refs: seq<Digest>, s: Supply, g: Digest)
    requires Inv(t, d) && SupplyOk(s) && LandSupply(t, d, refs, s).ok && g in Brought(refs, s)
    ensures Obj(g) in Do(d, LandSupply(t, d, refs, s)).shared
  {
    match s
    case Tree(files) => TreeProvides(t, d, files, g);
    case Blob(_, _, _, _) => PackProvides(t, d, refs, s, g);
    case Nothing =>
  }

  lemma {:induction false} LandingKeeps(t: Tools, d: Disk, refs: seq<Digest>, s: Supply)
    requires Inv(t, d)
    ensures Extends(d, Do(d, LandSupply(t, d, refs, s)))
  {
    LandSupplyLegal(t, d, refs, s);
    StoreOpsExtend(t, d, LandSupply(t, d, refs, s).ops);
  }

  /** A landing that returns leaves in the store what was there and what it brings, by name, and nothing else. */
  lemma {:induction false} LandingBrings(t: Tools, d: Disk, refs: seq<Digest>, s: Supply, g: Digest)
    requires Inv(t, d) && SupplyOk(s) && LandSupply(t, d, refs, s).ok
    ensures Obj(g) in Do(d, LandSupply(t, d, refs, s)).shared <==> Obj(g) in d.shared || g in Brought(refs, s)
  {
    LandingKeeps(t, d, refs, s);
    if g in Brought(refs, s) { BroughtIsThere(t, d, refs, s, g); }
    if Obj(g) in Do(d, LandSupply(t, d, refs, s)).shared {
      match s
      case Tree(files) => TreeBrings(t, d, files, g);
      case Blob(_, _, _, _) => PackBrings(t, d, refs, s, g);
      case Nothing =>
    }
  }
}
