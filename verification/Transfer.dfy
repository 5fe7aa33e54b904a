/**
 Landing an image's objects (`zerith/objects.py`): from a local tree, or from the pack by byte ranges, with
 the buffers sliced back into objects in whatever order the fetches complete.
 */
module Transfer {
  import opened Options
  import opened Orders
  import opened IndexText
  import opened Pack
  import opened Coalesce
  import opened Filesystem
  import opened Objects

  type PackIndex = map<Digest, (nat, nat)>

  /** Where a source's objects come from: a tree, a pack blob with its index, or nowhere. */
  datatype Supply =
    | Tree(files: seq<(Digest, Bytes)>)
    | Blob(indexText: string, fetch: (int, int) -> Bytes, order: nat -> seq<nat>, gap: nat)
    | Nothing

  // ------------------------------------------------------- the missing set

  /** Python's order on `(offset, length, digest)` tuples. */
  predicate EntryLe(a: Entry, b: Entry) {
    a.off < b.off || (a.off == b.off && (a.len < b.len || (a.len == b.len && StrLe(a.digest, b.digest))))
  }

  lemma {:induction false} EntryIsTotal()
    ensures IsTotal(EntryLe)
  {
    StrIsTotal();
  }

  predicate Lacks(g: Digest, have: set<Digest>, index: PackIndex) { g !in have && g in index }

  function EntryOf(g: Digest, index: PackIndex): Entry
    requires g in index
  {
    Entry(index[g].0, index[g].1, g)
  }

  function WantOf(refs: seq<Digest>, have: set<Digest>, index: PackIndex): (want: seq<Entry>) {
    if refs == [] then []
    else
      var z := refs[|refs| - 1];
      WantOf(refs[..|refs| - 1], have, index) + (if Lacks(z, have, index) then [EntryOf(z, index)] else [])
  }

  function Want(refs: seq<Digest>, have: set<Digest>, index: PackIndex): (want: seq<Entry>) {
    Sort(WantOf(refs, have, index), EntryLe)
  }

  function CountPresent(refs: seq<Digest>, have: set<Digest>): (n: nat) {
    if refs == [] then 0
    else CountPresent(refs[..|refs| - 1], have) + (if refs[|refs| - 1] in have then 1 else 0)
  }

  function CountInlined(refs: seq<Digest>, have: set<Digest>, index: PackIndex): (n: nat) {
    if refs == [] then 0
    else
      var z := refs[|refs| - 1];
      CountInlined(refs[..|refs| - 1], have, index) + (if z !in have && z !in index then 1 else 0)
  }

  lemma {:induction false} CardStep(e: set<Digest>, z: Digest, x: set<Digest>)
    requires z !in e
    ensures |(e + {z}) * x| == |e * x| + (if z in x then 1 else 0)
    ensures |(e + {z}) - x| == |e - x| + (if z in x then 0 else 1)
  {
    if z in x {
      assert (e + {z}) * x == (e * x) + {z} && (e + {z}) - x == e - x;
    } else {
      assert (e + {z}) * x == e * x && (e + {z}) - x == (e - x) + {z};
    }
  }

  lemma {:induction false} CountsAreCards(refs: seq<Digest>, have: set<Digest>, index: PackIndex)
    requires NoDup(refs)
    ensures CountPresent(refs, have) == |Elems(refs) * have|
    ensures CountInlined(refs, have, index) == |Elems(refs) - (have + index.Keys)|
  {
    if refs == [] {
      assert Elems(refs) == {};
    } else {
      var init, z := refs[..|refs| - 1], refs[|refs| - 1];
      ElemsInit(refs);
      CountsAreCards(init, have, index);
      CardStep(Elems(init), z, have);
      CardStep(Elems(init), z, have + index.Keys);
    }
  }

  /** `_missing_objects`: one pass over the references, then the sort by offset. */
  method MissingObjects(refs: seq<Digest>, have: set<Digest>, index: PackIndex)
    returns (want: seq<Entry>, inlined: nat, present: nat)
    ensures want == Want(refs, have, index)
    ensures |refs| == |want| + inlined + present
    ensures present == CountPresent(refs, have) && inlined == CountInlined(refs, have, index)
    ensures NoDup(refs) ==> present == |Elems(refs) * have| && inlined == |Elems(refs) - (have + index.Keys)|
  {
    want, inlined, present := [], 0, 0;
    for i := 0 to |refs|
      invariant want == WantOf(refs[..i], have, index)
      invariant present == CountPresent(refs[..i], have)
      invariant inlined == CountInlined(refs[..i], have, index)
      invariant i == |want| + inlined + present
    {
      var g := refs[i];
      assert refs[..i + 1][..i] == refs[..i] && refs[..i + 1][i] == g;
      if g in have {
        present := present + 1;
      } else if g !in index {
        inlined := inlined + 1;
      } else {
        want := want + [EntryOf(g, index)];
      }
    }
    assert refs[..|refs|] == refs;
    if NoDup(refs) { CountsAreCards(refs, have, index); }
    want := Sort(want, EntryLe);
    EntryIsTotal();
    SortSorts(WantOf(refs, have, index), EntryLe);
  }

  ghost predicate DistinctDigests(want: seq<Entry>) {
    forall i, j | 0 <= i < j < |want| :: want[i].digest != want[j].digest
  }

  lemma {:induction false} WantOfMembers(refs: seq<Digest>, have: set<Digest>, index: PackIndex)
    ensures forall e :: e in WantOf(refs, have, index) <==>
                          e.digest in refs && Lacks(e.digest, have, index) && e == EntryOf(e.digest, index)
    ensures NoDup(refs) ==> DistinctDigests(WantOf(refs, have, index))
  {
    if refs != [] {
      var init, z := refs[..|refs| - 1], refs[|refs| - 1];
      assert refs == init + [z];
      WantOfMembers(init, have, index);
      if NoDup(refs) {
        assert z !in init;
        var w := WantOf(init, have, index);
        assert forall i | 0 <= i < |w| :: w[i] in w && w[i].digest in init;
      }
    }
  }

  lemma {:induction false} DistinctPermuted(a: seq<Entry>, b: seq<Entry>)
    requires DistinctDigests(a) && multiset(a) == multiset(b)
    ensures DistinctDigests(b)
  {
    forall i, j | 0 <= i < j < |b| ensures b[i].digest != b[j].digest {
      if b[i].digest == b[j].digest {
        assert b[i] in multiset(b) && b[j] in multiset(b);
        assert b[i] in a && b[j] in a;
        assert b[i] == b[j];
        assert b == b[..i] + [b[i]] + b[i + 1..j] + [b[j]] + b[j + 1..];
        assert multiset(b)[b[i]] >= 2;
        EntryOnce(a, b[i]);
      }
    }
  }

  lemma {:induction false} EntryOnce(a: seq<Entry>, x: Entry)
    requires DistinctDigests(a)
    ensures multiset(a)[x] <= 1
  {
    if a != [] {
      EntryOnce(a[1..], x);
      assert a == [a[0]] + a[1..];
      assert x in a[1..] ==> a[0] != x;
    }
  }

  /** The want list: sorted, one entry for each reference the store lacks and the pack has. */
  lemma {:induction false} WantMembers(refs: seq<Digest>, have: set<Digest>, index: PackIndex)
    ensures var w := Want(refs, have, index);
            && SortedByOffset(w)
            && (forall e :: e in w <==>
                  e.digest in refs && Lacks(e.digest, have, index) && e == EntryOf(e.digest, index))
            && (NoDup(refs) ==> DistinctDigests(w))
  {
    var u := WantOf(refs, have, index);
    EntryIsTotal();
    SortSorts(u, EntryLe);
    WantOfMembers(refs, have, index);
    if NoDup(refs) { DistinctPermuted(u, Want(refs, have, index)); }
  }

  // ------------------------------------------------------- buffers to pieces

  /** `buf.seek(rel_off); buf.read(length)`. */
  function Slice(buf: Bytes, off: int, len: nat): Bytes { if off < 0 then [] else Read(buf, off, len) }

  function PieceOf(buf: Bytes, o: Entry): Piece { Piece(o.digest, Slice(buf, o.off, o.len), false) }

  function RangePieces(buf: Bytes, objs: seq<Entry>): (ps: seq<Piece>) {
    seq(|objs|, i requires 0 <= i < |objs| => PieceOf(buf, objs[i]))
  }

  function TreePieces(files: seq<(Digest, Bytes)>): (ps: seq<Piece>) {
    seq(|files|, i requires 0 <= i < |files| => Piece(files[i].0, files[i].1, true))
  }

  function Response(ranges: seq<Range>, fetch: (int, int) -> Bytes, i: nat): Bytes
    requires i < |ranges|
  {
    fetch(ranges[i].start, ranges[i].end)
  }

  /** `_land_pack_by_range`: place each range as its fetch completes; die on a response of the wrong size. */
  function LandRanges(t: Tools, d: Disk, ranges: seq<Range>, fetch: (int, int) -> Bytes, order: seq<nat>): (p: Plan)
    decreases |order|
  {
    if order == [] then Plan([], true)
    else if order[0] >= |ranges| then LandRanges(t, d, ranges, fetch, order[1..])
    else
      var buf := Response(ranges, fetch, order[0]);
      if |buf| != ranges[order[0]].Size() then Plan([], false)
      else
        var first := LandPieces(t, d, RangePieces(buf, ranges[order[0]].objs));
        Then(first, LandRanges(t, Do(d, first), ranges, fetch, order[1..]))
  }

  /** `land_from_pack`, for an image whose references are `refs`. */
  function LandFromPack(t: Tools, d: Disk, refs: seq<Digest>, s: Supply): (p: Plan)
    requires s.Blob?
  {
    match HostEntries(s.indexText)
    case None => Plan([], false)
    case Some(entries) =>
      var ranges := Coalesced(Want(refs, Digests(d), AsMap(entries)), s.gap);
      LandRanges(t, d, ranges, s.fetch, s.order(|ranges|))
  }

  /** `_land_objects`. */
  function LandSupply(t: Tools, d: Disk, refs: seq<Digest>, s: Supply): (p: Plan) {
    match s
    case Tree(files) => LandPieces(t, d, TreePieces(files))
    case Blob(_, _, _, _) => LandFromPack(t, d, refs, s)
    case Nothing => Plan([], false)
  }

  /** The names a supply has. */
  function Supplied(s: Supply): set<Digest> {
    match s
    case Tree(files) => set f | f in files :: f.0
    case Blob(text, _, _, _) => (match HostEntries(text) case None => {} case Some(es) => AsMap(es).Keys)
    case Nothing => {}
  }

  /** Every fetch completes, in some order. */
  ghost predicate Completes(order: seq<nat>, n: nat) { forall i: nat :: i < n ==> i in order }

  ghost predicate SupplyOk(s: Supply) {
    s.Blob? ==> forall n: nat :: Completes(s.order(n), n)
  }

  // -------------------------------------- ranges in order are pieces in order

  lemma {:induction false} LandPiecesConcat(t: Tools, d: Disk, a: seq<Piece>, b: seq<Piece>)
    ensures LandPieces(t, d, a + b)
         == Then(LandPieces(t, d, a), LandPieces(t, Do(d, LandPieces(t, d, a)), b))
    decreases |a|
  {
    if a == [] {
      assert a + b == b;
      assert [] + LandPieces(t, d, b).ops == LandPieces(t, d, b).ops;
    } else {
      var first := LandPiece(t, d, a[0]);
      var m := Do(d, first);
      var rest := LandPieces(t, m, a[1..]);
      assert (a + b)[0] == a[0] && (a + b)[1..] == a[1..] + b;
      LandPiecesConcat(t, m, a[1..], b);
      ThenAssoc(first, rest, LandPieces(t, Do(m, rest), b));
      RunConcat(d, first.ops, rest.ops);
    }
  }

  function PiecesFor(ranges: seq<Range>, fetch: (int, int) -> Bytes, order: seq<nat>): (ps: seq<Piece>)
    decreases |order|
  {
    if order == [] then []
    else
      (if order[0] < |ranges| then RangePieces(Response(ranges, fetch, order[0]), ranges[order[0]].objs) else [])
      + PiecesFor(ranges, fetch, order[1..])
  }

  ghost predicate FullResponses(ranges: seq<Range>, fetch: (int, int) -> Bytes) {
    forall i | 0 <= i < |ranges| :: |Response(ranges, fetch, i)| == ranges[i].Size()
  }

  lemma {:induction false} LandRangesIsPieces(t: Tools, d: Disk, ranges: seq<Range>, fetch: (int, int) -> Bytes,
                                              order: seq<nat>)
    requires FullResponses(ranges, fetch)
    ensures LandRanges(t, d, ranges, fetch, order) == LandPieces(t, d, PiecesFor(ranges, fetch, order))
    decreases |order|
  {
    if order != [] {
      if order[0] >= |ranges| {
        LandRangesIsPieces(t, d, ranges, fetch, order[1..]);
        assert [] + PiecesFor(ranges, fetch, order[1..]) == PiecesFor(ranges, fetch, order[1..]);
      } else {
        var head := RangePieces(Response(ranges, fetch, order[0]), ranges[order[0]].objs);
        var first := LandPieces(t, d, head);
        LandRangesIsPieces(t, Do(d, first), ranges, fetch, order[1..]);
        LandPiecesConcat(t, d, head, PiecesFor(ranges, fetch, order[1..]));
      }
    }
  }

  /** Whatever the responses contain, landing keeps the store's discipline and touches the store only. */
  lemma {:induction false} LandRangesLegal(t: Tools, d: Disk, ranges: seq<Range>, fetch: (int, int) -> Bytes,
                                           order: seq<nat>)
    requires Inv(t, d)
    ensures var p := LandRanges(t, d, ranges, fetch, order);
            Legal(t, d, p.ops) && AllStoreOps(p.ops)
    ensures LandRanges(t, d, ranges, fetch, order).ok ==>
              forall i | i in order && i < |ranges| :: |Response(ranges, fetch, i)| == ranges[i].Size()
    decreases |order|
  {
    if order != [] {
      assert order == [order[0]] + order[1..];
      if order[0] >= |ranges| {
        LandRangesLegal(t, d, ranges, fetch, order[1..]);
      } else {
        var ps := RangePieces(Response(ranges, fetch, order[0]), ranges[order[0]].objs);
        var first := LandPieces(t, d, ps);
        LandPiecesEffect(t, d, ps);
        LegalKeeps(t, d, first.ops);
        LandRangesLegal(t, Do(d, first), ranges, fetch, order[1..]);
        ThenLegal(t, d, first, LandRanges(t, Do(d, first), ranges, fetch, order[1..]));
      }
    }
  }

  lemma {:induction false} LandSupplyLegal(t: Tools, d: Disk, refs: seq<Digest>, s: Supply)
    requires Inv(t, d)
    ensures var p := LandSupply(t, d, refs, s);
            Legal(t, d, p.ops) && AllStoreOps(p.ops)
  {
    match s
    case Tree(files) => LandPiecesEffect(t, d, TreePieces(files));
    case Blob(text, fetch, order, gap) =>
      match HostEntries(text) {
        case None =>
        case Some(es) =>
          var ranges := Coalesced(Want(refs, Digests(d), AsMap(es)), gap);
          LandRangesLegal(t, d, ranges, fetch, order(|ranges|));
      }
    case Nothing =>
  }

  /**
   Store integrity: whatever bytes the responses or the tree contain, and wherever the landing stops, every
   digest-named entry measures to its own name, every entry there was is there with its inode and its bytes,
   and nothing outside the store has changed.
   */
  lemma {:induction false} LandingIsSafe(t: Tools, d: Disk, refs: seq<Digest>, s: Supply, k: nat)
    requires Inv(t, d) && k <= |LandSupply(t, d, refs, s).ops|
    ensures var r := Run(d, LandSupply(t, d, refs, s).ops[..k]);
            Inv(t, r) && Extends(d, r) && SameHost(d, r)
  {
    var ops := LandSupply(t, d, refs, s).ops;
    LandSupplyLegal(t, d, refs, s);
    LegalPrefix(t, d, ops, k);
    LegalKeeps(t, d, ops[..k]);
    StoreOpsExtend(t, d, ops[..k]);
  }

  // --------------------------------------------------- completion order

  /** Pieces of the same name are the same piece. */
  ghost predicate Functional(ps: seq<Piece>) {
    forall p, q | p in ps && q in ps && p.digest == q.digest :: p == q
  }

  lemma {:induction false} MergeValue(c: map<Digest, Bytes>, ps: seq<Piece>, p: Piece)
    requires Functional(ps) && p in ps && p.digest !in c
    ensures p.digest in Merge(c, ps) && Merge(c, ps)[p.digest] == p.bytes
    decreases |ps|
  {
    assert ps == [ps[0]] + ps[1..];
    var c' := MergeOne(c, ps[0]);
    if ps[0].digest == p.digest {
      MergeHas(c', ps[1..], p.digest);
    } else {
      MergeValue(c', ps[1..], p);
    }
  }

  /** What a landing leaves depends on the set of pieces alone. */
  lemma {:induction false} MergeForgetsOrder(c: map<Digest, Bytes>, a: seq<Piece>, b: seq<Piece>)
    requires Functional(a) && forall p :: p in a <==> p in b
    ensures Merge(c, a) == Merge(c, b)
  {
    forall g ensures g in Merge(c, a) <==> g in Merge(c, b) {
      MergeHas(c, a, g);
      MergeHas(c, b, g);
    }
    forall g | g in Merge(c, a) ensures Merge(c, a)[g] == Merge(c, b)[g] {
      MergeHas(c, a, g);
      MergeHas(c, b, g);
      if g !in c {
        var p :| p in a && p.digest == g;
        MergeValue(c, a, p);
        MergeValue(c, b, p);
      }
    }
  }

  /** A piece comes from one object of one fetched range. */
  ghost predicate FromRange(ranges: seq<Range>, fetch: (int, int) -> Bytes, i: nat, p: Piece) {
    i < |ranges| && p in RangePieces(Response(ranges, fetch, i), ranges[i].objs)
  }

  lemma {:induction false} PiecesForMembers(ranges: seq<Range>, fetch: (int, int) -> Bytes, order: seq<nat>, p: Piece)
    ensures p in PiecesFor(ranges, fetch, order) <==> exists i | i in order :: FromRange(ranges, fetch, i, p)
    decreases |order|
  {
    if order != [] {
      PiecesForMembers(ranges, fetch, order[1..], p);
      assert order == [order[0]] + order[1..];
      assert p in PiecesFor(ranges, fetch, order) <==>
             FromRange(ranges, fetch, order[0], p) || p in PiecesFor(ranges, fetch, order[1..]);
    }
  }

  lemma {:induction false} AbsoluteIn(ranges: seq<Range>, i: nat, k: nat)
    requires i < |ranges| && k < |ranges[i].objs|
    ensures Absolute(ranges[i])[k] in Flatten(ranges)
  {
    if i > 0 { AbsoluteIn(ranges[1..], i - 1, k); }
  }

  lemma {:induction false} DistinctApart(a: seq<Entry>, b: seq<Entry>, m: nat, e: Entry)
    requires DistinctDigests(a + b) && m < |a| && e in b
    ensures a[m].digest != e.digest
  {
    var x :| 0 <= x < |b| && b[x] == e;
    assert (a + b)[m] == a[m] && (a + b)[|a| + x] == b[x];
  }

  /** With distinct digests an object lies in one place of one range. */
  lemma {:induction false} OnePlace(ranges: seq<Range>, i: nat, k: nat, j: nat, l: nat)
    requires DistinctDigests(Flatten(ranges))
    requires i < |ranges| && k < |ranges[i].objs| && j < |ranges| && l < |ranges[j].objs|
    requires ranges[i].objs[k].digest == ranges[j].objs[l].digest
    ensures i == j && k == l
  {
    var a, b := Absolute(ranges[0]), Flatten(ranges[1..]);
    assert Flatten(ranges) == a + b;
    assert DistinctDigests(a) by {
      forall x, y | 0 <= x < y < |a| ensures a[x].digest != a[y].digest {
        assert (a + b)[x] == a[x] && (a + b)[y] == a[y];
      }
    }
    assert DistinctDigests(b) by {
      forall x, y | 0 <= x < y < |b| ensures b[x].digest != b[y].digest {
        assert (a + b)[|a| + x] == b[x] && (a + b)[|a| + y] == b[y];
      }
    }
    if i == 0 && j == 0 {
      assert a[k].digest == a[l].digest;
    } else if i > 0 && j > 0 {
      OnePlace(ranges[1..], i - 1, k, j - 1, l);
    } else {
      var m, n, p := if i == 0 then k else l, if i == 0 then j else i, if i == 0 then l else k;
      AbsoluteIn(ranges[1..], n - 1, p);
      DistinctApart(a, b, m, Absolute(ranges[n])[p]);
    }
  }

  lemma {:induction false} FromObject(ranges: seq<Range>, fetch: (int, int) -> Bytes, i: nat, p: Piece) returns (k: nat)
    requires FromRange(ranges, fetch, i, p)
    ensures k < |ranges[i].objs| && p == PieceOf(Response(ranges, fetch, i), ranges[i].objs[k])
    ensures p.digest == ranges[i].objs[k].digest
  {
    k :| k < |ranges[i].objs| && p == PieceOf(Response(ranges, fetch, i), ranges[i].objs[k]);
  }

  lemma {:induction false} PiecesFunctional(ranges: seq<Range>, fetch: (int, int) -> Bytes, order: seq<nat>)
    requires DistinctDigests(Flatten(ranges))
    ensures Functional(PiecesFor(ranges, fetch, order))
  {
    var ps := PiecesFor(ranges, fetch, order);
    forall p, q | p in ps && q in ps && p.digest == q.digest ensures p == q {
      PiecesForMembers(ranges, fetch, order, p);
      PiecesForMembers(ranges, fetch, order, q);
      var i: nat :| i in order && FromRange(ranges, fetch, i, p);
      var j: nat :| j in order && FromRange(ranges, fetch, j, q);
      var k := FromObject(ranges, fetch, i, p);
      var l := FromObject(ranges, fetch, j, q);
      OnePlace(ranges, i, k, j, l);
    }
  }

  lemma {:induction false} CompleteMeansFull(t: Tools, d: Disk, ranges: seq<Range>, fetch: (int, int) -> Bytes,
                                             order: seq<nat>)
    requires Inv(t, d) && Completes(order, |ranges|) && LandRanges(t, d, ranges, fetch, order).ok
    ensures FullResponses(ranges, fetch)
    ensures Contents(Do(d, LandRanges(t, d, ranges, fetch, order)))
         == Merge(Contents(d), PiecesFor(ranges, fetch, order))
  {
    LandRangesLegal(t, d, ranges, fetch, order);
    forall i: nat | i < |ranges| ensures |Response(ranges, fetch, i)| == ranges[i].Size() {
      assert i in order;
    }
    LandRangesIsPieces(t, d, ranges, fetch, order);
    LandPiecesEffect(t, d, PiecesFor(ranges, fetch, order));
  }

  /** A piece that a landing onto `d` gets past: its name is there, or its bytes measure to it. */
  ghost predicate Lands(t: Tools, d: Disk, p: Piece) { Obj(p.digest) in d.shared || t.measure(p.bytes) == p.digest }

  ghost predicate AllLand(t: Tools, d: Disk, ps: seq<Piece>) { forall p | p in ps :: Lands(t, d, p) }

  lemma {:induction false} LandedNames(t: Tools, d: Disk, p: Piece)
    requires Inv(t, d)
    ensures var r := LandPiece(t, d, p);
            && Inv(t, Do(d, r)) && (r.ok <==> Lands(t, d, p))
            && forall g :: Obj(g) in Do(d, r).shared <==> Obj(g) in d.shared || (r.ok && g == p.digest)
  {
    var r := LandPiece(t, d, p);
    LandPieceEffect(t, d, p);
    LegalKeeps(t, d, r.ops);
    forall g ensures Obj(g) in Do(d, r).shared <==> Obj(g) in d.shared || (r.ok && g == p.digest) {
      InContents(d, g);
      InContents(Do(d, r), g);
    }
  }

  ghost predicate Adds(d: Disk, m: Disk, g: Digest) {
    forall h :: Obj(h) in m.shared <==> Obj(h) in d.shared || h == g
  }

  lemma {:induction false} AllLandStep(t: Tools, d: Disk, m: Disk, ps: seq<Piece>)
    requires ps != [] && Functional(ps) && Lands(t, d, ps[0]) && Adds(d, m, ps[0].digest)
    ensures AllLand(t, m, ps[1..]) <==> AllLand(t, d, ps) && Functional(ps[1..])
  {
    assert ps == [ps[0]] + ps[1..];
    forall p | p in ps[1..] ensures Lands(t, m, p) <==> Lands(t, d, p) {
      assert p in ps && (p.digest == ps[0].digest ==> p == ps[0]);
    }
  }

  /** A landing loop over pieces with a name each returns exactly when each of them lands. */
  lemma {:induction false} LandPiecesReturn(t: Tools, d: Disk, ps: seq<Piece>)
    requires Inv(t, d) && Functional(ps)
    ensures LandPieces(t, d, ps).ok <==> AllLand(t, d, ps)
    decreases |ps|
  {
    if ps != [] {
      LandedNames(t, d, ps[0]);
      if Lands(t, d, ps[0]) {
        var m := Do(d, LandPiece(t, d, ps[0]));
        assert Adds(d, m, ps[0].digest);
        AllLandStep(t, d, m, ps);
        LandPiecesReturn(t, m, ps[1..]);
      }
    }
  }

  /** All responses are full, and every object cut out of them lands. */
  ghost predicate AllArrive(t: Tools, d: Disk, ranges: seq<Range>, fetch: (int, int) -> Bytes) {
    FullResponses(ranges, fetch) && forall i, p | FromRange(ranges, fetch, i, p) :: Lands(t, d, p)
  }

  /** Whether a landing returns does not depend on the order in which the fetches complete, only on what arrives. */
  lemma {:induction false} LandRangesReturn(t: Tools, d: Disk, ranges: seq<Range>, fetch: (int, int) -> Bytes,
                                            order: seq<nat>)
    requires Inv(t, d) && DistinctDigests(Flatten(ranges)) && Completes(order, |ranges|)
    ensures LandRanges(t, d, ranges, fetch, order).ok <==> AllArrive(t, d, ranges, fetch)
  {
    var ps := PiecesFor(ranges, fetch, order);
    if LandRanges(t, d, ranges, fetch, order).ok { CompleteMeansFull(t, d, ranges, fetch, order); }
    if FullResponses(ranges, fetch) {
      LandRangesIsPieces(t, d, ranges, fetch, order);
      PiecesFunctional(ranges, fetch, order);
      LandPiecesReturn(t, d, ps);
      forall p ensures p in ps <==> exists i | i in order :: FromRange(ranges, fetch, i, p) {
        PiecesForMembers(ranges, fetch, order, p);
      }
    }
  }

  /**
   A landing that returns in one completion order returns in every other, and leaves the same store, whatever
   the responses contain.
   */
  lemma {:induction false} CompletionOrderIrrelevant(t: Tools, d: Disk, want: seq<Entry>, gap: nat,
                                                     fetch: (int, int) -> Bytes, a: seq<nat>, b: seq<nat>)
    requires Inv(t, d) && DistinctDigests(want)
    requires Completes(a, |Coalesced(want, gap)|) && Completes(b, |Coalesced(want, gap)|)
    requires LandRanges(t, d, Coalesced(want, gap), fetch, a).ok
    ensures LandRanges(t, d, Coalesced(want, gap), fetch, b).ok
    ensures Contents(Do(d, LandRanges(t, d, Coalesced(want, gap), fetch, a)))
         == Contents(Do(d, LandRanges(t, d, Coalesced(want, gap), fetch, b)))
  {
    var ranges := Coalesced(want, gap);
    CoalesceLossless(want, gap);
    LandRangesReturn(t, d, ranges, fetch, a);
    LandRangesReturn(t, d, ranges, fetch, b);
    CompleteMeansFull(t, d, ranges, fetch, a);
    CompleteMeansFull(t, d, ranges, fetch, b);
    PiecesFunctional(ranges, fetch, a);
    var x, y := PiecesFor(ranges, fetch, a), PiecesFor(ranges, fetch, b);
    forall p ensures p in x <==> p in y {
      PiecesForMembers(ranges, fetch, a, p);
      PiecesForMembers(ranges, fetch, b, p);
    }
    MergeForgetsOrder(Contents(d), x, y);
  }

  // ------------------------------------------------- what a landing provides

  lemma {:induction false} FlattenPlace(ranges: seq<Range>, e: Entry) returns (i: nat, k: nat)
    requires e in Flatten(ranges)
    ensures i < |ranges| && k < |ranges[i].objs| && Absolute(ranges[i])[k] == e
  {
    var a, b := Absolute(ranges[0]), Flatten(ranges[1..]);
    if e in a {
      i := 0;
      k :| k < |a| && a[k] == e;
    } else {
      var x, y := FlattenPlace(ranges[1..], e);
      i, k := x + 1, y;
    }
  }

  lemma {:induction false} PackProvides(t: Tools, d: Disk, refs: seq<Digest>, s: Supply, g: Digest)
    requires Inv(t, d) && s.Blob? && SupplyOk(s) && LandFromPack(t, d, refs, s).ok
    requires g in refs && g in Supplied(s)
    ensures Obj(g) in Do(d, LandFromPack(t, d, refs, s)).shared
  {
    var es := HostEntries(s.indexText).value;
    var want := Want(refs, Digests(d), AsMap(es));
    var ranges := Coalesced(want, s.gap);
    var order := s.order(|ranges|);
    var p := LandRanges(t, d, ranges, s.fetch, order);
    assert Completes(s.order(|ranges|), |ranges|);
    CompleteMeansFull(t, d, ranges, s.fetch, order);
    MergeHas(Contents(d), PiecesFor(ranges, s.fetch, order), g);
    InContents(d, g);
    InContents(Do(d, p), g);
    if g !in Digests(d) {
      WantMembers(refs, Digests(d), AsMap(es));
      var e := EntryOf(g, AsMap(es));
      assert e in want;
      CoalesceLossless(want, s.gap);
      var i, k := FlattenPlace(ranges, e);
      var piece := PieceOf(Response(ranges, s.fetch, i), ranges[i].objs[k]);
      assert piece == RangePieces(Response(ranges, s.fetch, i), ranges[i].objs)[k];
      assert FromRange(ranges, s.fetch, i, piece);
      PiecesForMembers(ranges, s.fetch, order, piece);
    }
  }

  lemma {:induction false} TreeProvides(t: Tools, d: Disk, files: seq<(Digest, Bytes)>, g: Digest)
    requires Inv(t, d) && LandPieces(t, d, TreePieces(files)).ok && g in Supplied(Tree(files))
    ensures Obj(g) in Do(d, LandPieces(t, d, TreePieces(files))).shared
  {
    var ps := TreePieces(files);
    LandPiecesEffect(t, d, ps);
    MergeHas(Contents(d), ps, g);
    var f :| f in files && f.0 == g;
    var i :| 0 <= i < |files| && files[i] == f;
    assert ps[i].digest == g;
    InContents(Do(d, LandPieces(t, d, ps)), g);
  }

  /** A landing that returns has every referenced object its supply has. */
  lemma {:induction false} LandingProvides(t: Tools, d: Disk, refs: seq<Digest>, s: Supply)
    requires Inv(t, d) && SupplyOk(s) && LandSupply(t, d, refs, s).ok
    ensures forall g | g in refs && g in Supplied(s) :: Obj(g) in Do(d, LandSupply(t, d, refs, s)).shared
  {
    forall g | g in refs && g in Supplied(s) ensures Obj(g) in Do(d, LandSupply(t, d, refs, s)).shared {
      match s
      case Tree(files) => TreeProvides(t, d, files, g);
      case Blob(_, _, _, _) => PackProvides(t, d, refs, s, g);
      case Nothing =>
    }
  }

  // ------------------------------------------------------------ end to end

  /** The pack and index the producer made from `objects`, served byte for byte. */
  ghost predicate Offers(s: Supply, seen: seq<string>, objects: map<string, Bytes>) {
    && s.Blob? && SupplyOk(s)
    && AllStored(seen, objects)
    && s.indexText == IndexFile(seen, objects)
    && var pack := PackFile(seen, objects);
       forall a, b | 0 <= a <= b < |pack| :: s.fetch(a, b) == pack[a..b + 1]
  }

  /** A set of objects as CI publishes it: hex names, non-empty contents that measure to their names. */
  ghost predicate Published(t: Tools, objects: map<string, Bytes>) {
    HexStore(objects) && forall g | g in objects :: objects[g] != [] && t.measure(objects[g]) == g
  }

  ghost function IndexOf(objects: map<string, Bytes>, ds: seq<string>): PackIndex { AsMap(Layout(ds, objects, 0)) }

  lemma {:induction false} LayoutDistinct(ds: seq<string>, objects: map<string, Bytes>)
    requires NoDup(ds)
    ensures var index := Layout(ds, objects, 0);
            && (forall i, j | 0 <= i < j < |index| :: index[i].digest != index[j].digest)
            && (forall d | d in ds :: exists e | e in index :: e.digest == d)
  {
    var index := Layout(ds, objects, 0);
    LayoutDigests(ds, objects, 0);
    assert |DigestsOf(index)| == |index|;
    forall i | 0 <= i < |index| ensures index[i].digest == ds[i] {
      assert DigestsOf(index)[i] == index[i].digest;
    }
    forall d | d in ds ensures exists e | e in index :: e.digest == d {
      var i :| 0 <= i < |ds| && ds[i] == d;
      assert index[i] in index;
    }
  }

  /** The part of the pack a wanted entry names is its object. */
  ghost predicate Locates(pack: Bytes, objects: map<string, Bytes>, e: Entry) {
    && e.digest in objects && e.len == |objects[e.digest]|
    && 0 <= e.off && e.off + e.len <= |pack|
    && pack[e.off..e.off + e.len] == objects[e.digest]
  }

  lemma {:induction false} EntryNamed(ds: seq<string>, objects: map<string, Bytes>, g: Digest) returns (e: IndexEntry)
    requires NoDup(ds) && g in ds
    ensures e in Layout(ds, objects, 0) && e.digest == g
    ensures g in IndexOf(objects, ds) && IndexOf(objects, ds)[g] == (e.off, e.len)
  {
    var list := Layout(ds, objects, 0);
    LayoutDistinct(ds, objects);
    e :| e in list && e.digest == g;
    AsMapLookup(list, e);
  }

  lemma {:induction false} IndexHas(ds: seq<string>, objects: map<string, Bytes>, g: Digest)
    requires NoDup(ds) && g in ds && g in objects
    ensures g in IndexOf(objects, ds) && Locates(Concat(ds, objects), objects, EntryOf(g, IndexOf(objects, ds)))
  {
    var e := EntryNamed(ds, objects, g);
    LayoutLocates(ds, objects, 0, e);
    assert e.off - 0 == e.off;
  }

  lemma {:induction false} IndexOnly(ds: seq<string>, objects: map<string, Bytes>, g: Digest)
    requires g in IndexOf(objects, ds)
    ensures g in ds
  {
    var list := Layout(ds, objects, 0);
    AsMapKeys(list, g);
    var e :| e in list && e.digest == g;
    LayoutLocates(ds, objects, 0, e);
  }

  /** The published index maps exactly the published objects, each to where its bytes are in the pack. */
  lemma {:induction false} IndexLocates(ds: seq<string>, objects: map<string, Bytes>)
    requires NoDup(ds) && Elems(ds) == objects.Keys
    ensures IndexOf(objects, ds).Keys == objects.Keys
    ensures forall g | g in objects :: Locates(Concat(ds, objects), objects, EntryOf(g, IndexOf(objects, ds)))
  {
    forall g | g in objects
      ensures g in IndexOf(objects, ds) && Locates(Concat(ds, objects), objects, EntryOf(g, IndexOf(objects, ds)))
    {
      assert g in Elems(ds);
      IndexHas(ds, objects, g);
    }
    forall g | g in IndexOf(objects, ds) ensures g in objects {
      IndexOnly(ds, objects, g);
      assert g in Elems(ds);
    }
  }

  lemma {:induction false} SliceAt(pack: Bytes, a: nat, b: nat, k: nat)
    requires a <= b <= |pack| && k < b - a
    ensures pack[a..b][k] == pack[a + k]
  {
  }

  lemma {:induction false} SliceOfSlice(pack: Bytes, a: nat, b: nat, off: nat, len: nat)
    requires a <= b <= |pack| && off + len <= b - a
    ensures Slice(pack[a..b], off, len) == pack[a + off..a + off + len]
  {
    var buf := pack[a..b];
    assert Slice(buf, off, len) == if off >= |buf| then [] else buf[off..off + len];
    if len > 0 {
      var x, y := buf[off..off + len], pack[a + off..a + off + len];
      forall k | 0 <= k < len ensures x[k] == y[k] { SliceAt(pack, a, b, off + k); }
    }
  }

  /** Every request lies inside the pack. */
  lemma {:induction false} RequestInPack(want: seq<Entry>, gap: nat, pack: Bytes, objects: map<string, Bytes>, r: Range)
    requires SortedByOffset(want) && Positive(want) && forall e | e in want :: Locates(pack, objects, e)
    requires r in Coalesced(want, gap)
    ensures 0 <= r.start <= r.end < |pack|
  {
    CoalescePartitions(want, gap);
    assert RangeOk(r, gap);
    WantedFlatten(Coalesced(want, gap), r);
    var lo := WantedBy(want, r.start);
    var hi := WantedBy(want, r.end);
    assert Locates(pack, objects, lo) && Locates(pack, objects, hi);
    InsideRange(r, gap, r.start);
  }

  /** Exact responses are full, and slicing them gives back the objects. */
  lemma {:induction false} ExactPieces(want: seq<Entry>, gap: nat, fetch: (int, int) -> Bytes, pack: Bytes,
                                       objects: map<string, Bytes>, i: nat, k: nat)
    requires SortedByOffset(want) && Positive(want) && forall e | e in want :: Locates(pack, objects, e)
    requires forall a, b | 0 <= a <= b < |pack| :: fetch(a, b) == pack[a..b + 1]
    requires i < |Coalesced(want, gap)| && k < |Coalesced(want, gap)[i].objs|
    ensures var ranges := Coalesced(want, gap);
            var o := ranges[i].objs[k];
            && |Response(ranges, fetch, i)| == ranges[i].Size()
            && o.digest in objects
            && PieceOf(Response(ranges, fetch, i), o) == Piece(o.digest, objects[o.digest], false)
  {
    var ranges := Coalesced(want, gap);
    var r := ranges[i];
    var o := r.objs[k];
    RequestInPack(want, gap, pack, objects, r);
    assert fetch(r.start, r.end) == pack[r.start..r.end + 1];
    var e := Absolute(r)[k];
    assert e in want by {
      CoalesceLossless(want, gap);
      AbsoluteIn(ranges, i, k);
    }
    assert Locates(pack, objects, e);
    assert 0 <= o.off && r.start + o.off + o.len - 1 <= r.end by {
      CoalescePartitions(want, gap);
      assert RangeOk(r, gap);
    }
    SliceOfSlice(pack, r.start, r.end + 1, o.off, o.len);
  }

  lemma {:induction false} ExactIsFull(want: seq<Entry>, gap: nat, fetch: (int, int) -> Bytes, pack: Bytes,
                                       objects: map<string, Bytes>)
    requires SortedByOffset(want) && Positive(want) && forall e | e in want :: Locates(pack, objects, e)
    requires forall a, b | 0 <= a <= b < |pack| :: fetch(a, b) == pack[a..b + 1]
    ensures FullResponses(Coalesced(want, gap), fetch)
  {
    var ranges := Coalesced(want, gap);
    CoalescePartitions(want, gap);
    forall i: nat | i < |ranges| ensures |Response(ranges, fetch, i)| == ranges[i].Size() {
      assert RangeOk(ranges[i], gap);
      ExactPieces(want, gap, fetch, pack, objects, i, 0);
    }
  }

  lemma {:induction false} ExactContents(want: seq<Entry>, gap: nat, fetch: (int, int) -> Bytes, order: seq<nat>,
                                         pack: Bytes, objects: map<string, Bytes>, p: Piece)
    requires SortedByOffset(want) && Positive(want) && forall e | e in want :: Locates(pack, objects, e)
    requires forall a, b | 0 <= a <= b < |pack| :: fetch(a, b) == pack[a..b + 1]
    requires p in PiecesFor(Coalesced(want, gap), fetch, order)
    ensures p.digest in objects && p.bytes == objects[p.digest]
  {
    var ranges := Coalesced(want, gap);
    PiecesForMembers(ranges, fetch, order, p);
    var i: nat :| i in order && FromRange(ranges, fetch, i, p);
    var k := FromObject(ranges, fetch, i, p);
    ExactPieces(want, gap, fetch, pack, objects, i, k);
  }

  lemma {:induction false} ExactLanding(t: Tools, d: Disk, want: seq<Entry>, gap: nat, fetch: (int, int) -> Bytes,
                                        order: seq<nat>, pack: Bytes, objects: map<string, Bytes>)
    requires Inv(t, d) && Published(t, objects)
    requires SortedByOffset(want) && Positive(want) && forall e | e in want :: Locates(pack, objects, e)
    requires forall a, b | 0 <= a <= b < |pack| :: fetch(a, b) == pack[a..b + 1]
    requires Completes(order, |Coalesced(want, gap)|)
    ensures var p := LandRanges(t, d, Coalesced(want, gap), fetch, order);
            p.ok && Contents(Do(d, p)) == Merge(Contents(d), PiecesFor(Coalesced(want, gap), fetch, order))
    ensures forall p | p in PiecesFor(Coalesced(want, gap), fetch, order) ::
              p.digest in objects && p.bytes == objects[p.digest]
  {
    var ps := PiecesFor(Coalesced(want, gap), fetch, order);
    ExactIsFull(want, gap, fetch, pack, objects);
    LandRangesIsPieces(t, d, Coalesced(want, gap), fetch, order);
    forall p | p in ps ensures p.digest in objects && p.bytes == objects[p.digest] {
      ExactContents(want, gap, fetch, order, pack, objects, p);
    }
    LandPiecesEffect(t, d, ps);
  }

  /** The objects of an image that are published and not in the store yet. */
  ghost function New(refs: seq<Digest>, d: Disk, objects: map<string, Bytes>): map<Digest, Bytes> {
    map g | g in objects && g in refs && Obj(g) !in d.shared :: objects[g]
  }

  lemma {:induction false} MergeNew(d: Disk, refs: seq<Digest>, objects: map<string, Bytes>, ps: seq<Piece>)
    requires forall p | p in ps :: p.digest in objects && p.bytes == objects[p.digest] && p.digest in refs
    requires forall g | g in objects && g in refs && Obj(g) !in d.shared :: exists p | p in ps :: p.digest == g
    ensures Merge(Contents(d), ps) == Contents(d) + New(refs, d, objects)
  {
    var c, m, n := Contents(d), Merge(Contents(d), ps), New(refs, d, objects);
    forall g ensures g in m <==> g in c || g in n {
      MergeHas(c, ps, g);
      InContents(d, g);
    }
    forall g | g in m ensures m[g] == (c + n)[g] {
      MergeHas(c, ps, g);
      InContents(d, g);
      if g !in c {
        ValueOf(c, ps, objects, g);
      }
    }
  }

  lemma {:induction false} ValueOf(c: map<Digest, Bytes>, ps: seq<Piece>, objects: map<string, Bytes>, g: Digest)
    requires forall p | p in ps :: p.digest in objects && p.bytes == objects[p.digest]
    requires g !in c && g in Merge(c, ps)
    ensures g in objects && Merge(c, ps)[g] == objects[g]
    decreases |ps|
  {
    assert ps == [ps[0]] + ps[1..];
    if ps[0].digest == g {
      MergeHas(MergeOne(c, ps[0]), ps[1..], g);
    } else {
      ValueOf(MergeOne(c, ps[0]), ps[1..], objects, g);
    }
  }

  // -------------------------------------------------------- how much is fetched

  lemma {:induction false} WantInPack(refs: seq<Digest>, have: set<Digest>, index: seq<IndexEntry>, pack: Bytes,
                                      store: map<string, Bytes>, e: Entry)
    requires Rebuilds(index, pack, store) && e in Want(refs, have, AsMap(index))
    ensures 0 <= e.off && e.off + e.len <= |pack|
  {
    WantMembers(refs, have, AsMap(index));
    AsMapKeys(index, e.digest);
    var x :| x in index && x.digest == e.digest && AsMap(index)[e.digest] == (x.off, x.len);
    LayoutLocates(DigestsOf(index), store, 0, x);
  }

  /** With any index the gate accepts, a host never fetches more than the pack, whatever it has and wants. */
  lemma {:induction false} AcceptedBoundsFetch(refs: seq<Digest>, have: set<Digest>, gap: nat, index: seq<IndexEntry>,
                                               pack: Bytes, store: map<string, Bytes>)
    requires Rebuilds(index, pack, store)
    ensures TotalSize(Coalesced(Want(refs, have, AsMap(index)), gap)) <= |pack|
  {
    var want := Want(refs, have, AsMap(index));
    WantMembers(refs, have, AsMap(index));
    forall i | 0 <= i < |want| ensures 0 <= want[i].off && want[i].off + want[i].len <= |pack| {
      assert want[i] in want;
      WantInPack(refs, have, index, pack, store, want[i]);
    }
    NeverMoreThanThePack(want, gap, |pack|);
  }

  /** A host that has none of the published objects, and refers to all of them, wants every byte of the pack. */
  lemma {:induction false} WantsEveryByte(refs: seq<Digest>, have: set<Digest>, ds: seq<string>,
                                          objects: map<string, Bytes>, p: nat)
    requires NoDup(ds) && Elems(ds) == objects.Keys && objects.Keys <= Elems(refs) && objects.Keys !! have
    requires p < |Concat(ds, objects)|
    ensures p in Wanted(Want(refs, have, IndexOf(objects, ds)))
  {
    var index := IndexOf(objects, ds);
    var x := LayoutCovers(ds, objects, 0, p);
    LayoutLocates(ds, objects, 0, x);
    LayoutDistinct(ds, objects);
    AsMapLookup(Layout(ds, objects, 0), x);
    assert x.digest in Elems(ds) && x.digest in Elems(refs);
    WantMembers(refs, have, index);
    var e := EntryOf(x.digest, index);
    assert e in Want(refs, have, index);
    WantedOf(Want(refs, have, index), e, p);
  }

  lemma {:induction false} WantsThePack(refs: seq<Digest>, have: set<Digest>, ds: seq<string>,
                                        objects: map<string, Bytes>)
    requires NoDup(ds) && Elems(ds) == objects.Keys && objects.Keys <= Elems(refs) && objects.Keys !! have
    requires forall g | g in objects :: objects[g] != []
    ensures Wanted(Want(refs, have, IndexOf(objects, ds))) == Span(0, |Concat(ds, objects)|)
  {
    var want, size := Want(refs, have, IndexOf(objects, ds)), |Concat(ds, objects)|;
    WantPublished(refs, have, ds, objects);
    forall p | p in Wanted(want) ensures p in Span(0, size) {
      var e := WantedBy(want, p);
      assert Locates(Concat(ds, objects), objects, e);
    }
    forall p | p in Span(0, size) ensures p in Wanted(want) {
      WantsEveryByte(refs, have, ds, objects, p);
    }
  }

  lemma {:induction false} PackNotEmpty(ds: seq<string>, objects: map<string, Bytes>)
    requires Elems(ds) == objects.Keys && objects != map[] && forall g | g in objects :: objects[g] != []
    ensures Concat(ds, objects) != []
  {
    assert ds != [] by {
      var g :| g in objects;
      assert g in Elems(ds);
    }
    assert ds[0] in Elems(ds);
  }

  /** A fresh install, every object of which is missing, fetches the pack as one range, first byte to last. */
  lemma {:induction false} FreshInstallIsOneRange(refs: seq<Digest>, have: set<Digest>, ds: seq<string>,
                                                  objects: map<string, Bytes>, gap: nat)
    requires NoDup(ds) && Elems(ds) == objects.Keys && objects.Keys <= Elems(refs) && objects.Keys !! have
    requires objects != map[] && forall g | g in objects :: objects[g] != []
    ensures var r := Coalesced(Want(refs, have, IndexOf(objects, ds)), gap);
            |r| == 1 && r[0].start == 0 && r[0].end == |Concat(ds, objects)| - 1
  {
    WantPublished(refs, have, ds, objects);
    WantsThePack(refs, have, ds, objects);
    PackNotEmpty(ds, objects);
    AllBytesIsOneRange(Want(refs, have, IndexOf(objects, ds)), gap, |Concat(ds, objects)|);
  }

  // -------------------------------------------------------------- the claim

  /**
   End to end. Pack the published objects, print the index, parse it, take the missing set, coalesce it with
   any gap, fetch the ranges, slice the buffers, in any completion order: the landing returns, and the store
   is exactly its old content plus every referenced published object, byte for byte.
   */
  lemma {:induction false} PackRoundTrips(t: Tools, d: Disk, refs: seq<Digest>, s: Supply, seen: seq<string>,
                                          objects: map<string, Bytes>)
    requires Inv(t, d) && Published(t, objects)
    requires NoDup(seen) && Elems(seen) == objects.Keys && Offers(s, seen, objects)
    ensures LandFromPack(t, d, refs, s).ok
    ensures Contents(Do(d, LandFromPack(t, d, refs, s))) == Contents(d) + New(refs, d, objects)
  {
    ProducerPasses(seen, objects);
    var ds := Sort(seen, StrLe);
    LandPublished(t, d, refs, s, ds, objects);
  }

  lemma {:induction false} WantPublished(refs: seq<Digest>, have: set<Digest>, ds: seq<string>,
                                         objects: map<string, Bytes>)
    requires NoDup(ds) && Elems(ds) == objects.Keys && forall g | g in objects :: objects[g] != []
    ensures var want := Want(refs, have, IndexOf(objects, ds));
            && SortedByOffset(want) && Positive(want)
            && (forall e | e in want ::
                  Locates(Concat(ds, objects), objects, e) && e.digest in refs && e.digest !in have)
            && (forall g | g in objects && g in refs && g !in have :: exists e | e in want :: e.digest == g)
  {
    var index := IndexOf(objects, ds);
    var want := Want(refs, have, index);
    IndexLocates(ds, objects);
    WantMembers(refs, have, index);
    forall i | 0 <= i < |want| ensures want[i].len >= 1 {
      assert want[i] in want;
    }
    forall g | g in objects && g in refs && g !in have ensures exists e | e in want :: e.digest == g {
      assert EntryOf(g, index) in want;
    }
  }

  lemma {:induction false} LandPublished(t: Tools, d: Disk, refs: seq<Digest>, s: Supply, ds: seq<string>,
                                         objects: map<string, Bytes>)
    requires Inv(t, d) && Published(t, objects)
    requires NoDup(ds) && Elems(ds) == objects.Keys
    requires s.Blob? && SupplyOk(s) && HostEntries(s.indexText) == Some(Layout(ds, objects, 0))
    requires var pack := Concat(ds, objects);
             forall a, b | 0 <= a <= b < |pack| :: s.fetch(a, b) == pack[a..b + 1]
    ensures LandFromPack(t, d, refs, s).ok
    ensures Contents(Do(d, LandFromPack(t, d, refs, s))) == Contents(d) + New(refs, d, objects)
  {
    var want := Want(refs, Digests(d), IndexOf(objects, ds));
    var order := s.order(|Coalesced(want, s.gap)|);
    assert Completes(s.order(|Coalesced(want, s.gap)|), |Coalesced(want, s.gap)|);
    WantPublished(refs, Digests(d), ds, objects);
    ExactLanding(t, d, want, s.gap, s.fetch, order, Concat(ds, objects), objects);
    PublishedPieces(d, refs, want, s.gap, s.fetch, order, objects);
    MergeNew(d, refs, objects, PiecesFor(Coalesced(want, s.gap), s.fetch, order));
  }

  lemma {:induction false} PublishedPieces(d: Disk, refs: seq<Digest>, want: seq<Entry>, gap: nat,
                                           fetch: (int, int) -> Bytes, order: seq<nat>, objects: map<string, Bytes>)
    requires Completes(order, |Coalesced(want, gap)|)
    requires forall e | e in want :: e.digest in refs
    requires forall g | g in objects && g in refs && g !in Digests(d) :: exists e | e in want :: e.digest == g
    ensures var ps := PiecesFor(Coalesced(want, gap), fetch, order);
            && (forall p | p in ps :: p.digest in refs)
            && (forall g | g in objects && g in refs && Obj(g) !in d.shared :: exists p | p in ps :: p.digest == g)
  {
    var ps := PiecesFor(Coalesced(want, gap), fetch, order);
    forall p | p in ps ensures p.digest in refs {
      PieceIsWanted(want, gap, fetch, order, p);
    }
    forall g | g in objects && g in refs && Obj(g) !in d.shared ensures exists p | p in ps :: p.digest == g {
      InContents(d, g);
      var e :| e in want && e.digest == g;
      var p := WantedHasPiece(want, gap, fetch, order, e);
    }
  }

  lemma {:induction false} PieceIsWanted(want: seq<Entry>, gap: nat, fetch: (int, int) -> Bytes, order: seq<nat>,
                                         p: Piece)
    requires p in PiecesFor(Coalesced(want, gap), fetch, order)
    ensures exists e | e in want :: e.digest == p.digest
  {
    var ranges := Coalesced(want, gap);
    CoalesceLossless(want, gap);
    PiecesForMembers(ranges, fetch, order, p);
    var i: nat :| i in order && FromRange(ranges, fetch, i, p);
    var k := FromObject(ranges, fetch, i, p);
    AbsoluteIn(ranges, i, k);
    assert Absolute(ranges[i])[k].digest == p.digest;
  }

  lemma {:induction false} WantedHasPiece(want: seq<Entry>, gap: nat, fetch: (int, int) -> Bytes, order: seq<nat>,
                                          e: Entry)
    returns (p: Piece)
    requires e in want && Completes(order, |Coalesced(want, gap)|)
    ensures p in PiecesFor(Coalesced(want, gap), fetch, order) && p.digest == e.digest
  {
    var ranges := Coalesced(want, gap);
    CoalesceLossless(want, gap);
    var i, k := FlattenPlace(ranges, e);
    p := PieceOf(Response(ranges, fetch, i), ranges[i].objs[k]);
    assert p == RangePieces(Response(ranges, fetch, i), ranges[i].objs)[k];
    assert FromRange(ranges, fetch, i, p);
    PiecesForMembers(ranges, fetch, order, p);
  }

  /**
   The tally the landing reports: objects already present plus objects newly placed is the number of
   references that are not inlined, that is, which the store or the pack has.
   */
  lemma {:induction false} TallyIsExact(t: Tools, d: Disk, refs: seq<Digest>, s: Supply, seen: seq<string>,
                                        objects: map<string, Bytes>)
    requires Inv(t, d) && Published(t, objects) && NoDup(refs)
    requires NoDup(seen) && Elems(seen) == objects.Keys && Offers(s, seen, objects)
    ensures var placed := |Contents(Do(d, LandFromPack(t, d, refs, s)))| - |Contents(d)|;
            CountPresent(refs, Digests(d)) + placed == |Elems(refs) * (Digests(d) + objects.Keys)|
  {
    PackRoundTrips(t, d, refs, s, seen, objects);
    CountsAreCards(refs, Digests(d), map[]);
    NewCount(d, refs, objects);
    TallySets(Elems(refs), Digests(d), objects.Keys);
  }

  lemma {:induction false} NewCount(d: Disk, refs: seq<Digest>, objects: map<string, Bytes>)
    ensures |Contents(d) + New(refs, d, objects)| == |Contents(d)| + |(Elems(refs) * objects.Keys) - Digests(d)|
  {
    NewKeys(d, refs, objects);
  }

  lemma {:induction false} NewKeys(d: Disk, refs: seq<Digest>, objects: map<string, Bytes>)
    ensures New(refs, d, objects).Keys == (Elems(refs) * objects.Keys) - Digests(d)
    ensures |New(refs, d, objects)| == |(Elems(refs) * objects.Keys) - Digests(d)|
  {
    var n := New(refs, d, objects);
    forall g ensures g in n.Keys <==> g in (Elems(refs) * objects.Keys) - Digests(d) { InContents(d, g); }
    assert |n| == |n.Keys|;
  }

  lemma {:induction false} TallySets(refs: set<Digest>, have: set<Digest>, keys: set<Digest>)
    ensures |refs * have| + |(refs * keys) - have| == |refs * (have + keys)|
  {
    assert refs * (have + keys) == (refs * have) + ((refs * keys) - have);
  }

  /** Landing the same objects from a directory, in any order, gives the same store. */
  lemma {:induction false} PackEqualsTree(t: Tools, d: Disk, refs: seq<Digest>, s: Supply, seen: seq<string>,
                                          objects: map<string, Bytes>, files: seq<(Digest, Bytes)>)
    requires Inv(t, d) && Published(t, objects)
    requires NoDup(seen) && Elems(seen) == objects.Keys && Offers(s, seen, objects)
    requires forall f :: f in files <==> f.0 in objects && f.0 in refs && f.1 == objects[f.0]
    ensures LandSupply(t, d, refs, Tree(files)).ok
    ensures Contents(Do(d, LandSupply(t, d, refs, Tree(files)))) == Contents(Do(d, LandSupply(t, d, refs, s)))
  {
    PackRoundTrips(t, d, refs, s, seen, objects);
    TreePiecesOf(d, refs, objects, files);
    var ps := TreePieces(files);
    assert Measured(t, ps);
    LandPiecesEffect(t, d, ps);
    MergeNew(d, refs, objects, ps);
  }

  lemma {:induction false} TreePiecesOf(d: Disk, refs: seq<Digest>, objects: map<string, Bytes>,
                                        files: seq<(Digest, Bytes)>)
    requires forall f :: f in files <==> f.0 in objects && f.0 in refs && f.1 == objects[f.0]
    ensures var ps := TreePieces(files);
            && (forall p | p in ps :: p.digest in objects && p.bytes == objects[p.digest] && p.digest in refs)
            && (forall g | g in objects && g in refs && Obj(g) !in d.shared :: exists p | p in ps :: p.digest == g)
  {
    var ps := TreePieces(files);
    forall p | p in ps ensures p.digest in objects && p.bytes == objects[p.digest] && p.digest in refs {
      var i :| 0 <= i < |files| && p == Piece(files[i].0, files[i].1, true);
      assert files[i] in files;
    }
    forall g | g in objects && g in refs && Obj(g) !in d.shared ensures exists p | p in ps :: p.digest == g {
      assert (g, objects[g]) in files;
      var i :| 0 <= i < |files| && files[i] == (g, objects[g]);
      assert ps[i].digest == g;
    }
  }
}
