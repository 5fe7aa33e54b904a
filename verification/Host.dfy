/**
 The commands as they run: one object whose methods change the disk one operation at a time, with the
 source's loops, counters and early exits. Each is proved to carry out the operations of its plan, so that
 what is proved of a plan, at its end and after every prefix, holds of the method.
 */
module HostCommands {
  import opened Options
  import opened Orders
  import opened IndexText
  import opened Pack
  import opened Coalesce
  import opened Filesystem
  import opened Objects
  import opened Transfer
  import opened Lifecycle
  import opened Safety
  import opened Rollbacks
  import opened Runs
  import opened Landings
  import opened Outcomes

  lemma {:induction false} TreePiecesStep(files: seq<(Digest, Bytes)>, i: nat)
    requires i < |files|
    ensures TreePieces(files[i..]) == [Piece(files[i].0, files[i].1, true)] + TreePieces(files[i + 1..])
  {
  }

  lemma {:induction false} RangePiecesStep(buf: Bytes, objs: seq<Entry>, i: nat)
    requires i < |objs|
    ensures RangePieces(buf, objs[i..]) == [PieceOf(buf, objs[i])] + RangePieces(buf, objs[i + 1..])
  {
  }

  /** How many of the pieces a landing loop places. */
  function Placed(t: Tools, d: Disk, ps: seq<Piece>): (n: nat)
    decreases |ps|
  {
    if ps == [] then 0
    else
      var first := LandPiece(t, d, ps[0]);
      if !first.ok then 0
      else (if Obj(ps[0].digest) in d.shared then 0 else 1) + Placed(t, Do(d, first), ps[1..])
  }

  /** A landing loop after one more round: what is still to be done, and to be counted. */
  lemma {:induction false} LandStep(t: Tools, d: Disk, p: Piece, rest: seq<Piece>, done: seq<Op>)
    ensures var first := LandPiece(t, d, p);
            && Then(Plan(done, true), LandPieces(t, d, [p] + rest))
               == Then(Plan(done + first.ops, first.ok), LandPieces(t, Do(d, first), rest))
            && Placed(t, d, [p] + rest)
               == if !first.ok then 0
                  else (if Obj(p.digest) in d.shared then 0 else 1) + Placed(t, Do(d, first), rest)
  {
    var first := LandPiece(t, d, p);
    assert ([p] + rest)[1..] == rest;
    ThenAssoc(Plan(done, true), first, LandPieces(t, Do(d, first), rest));
  }

  lemma {:induction false} ThenNothing(done: seq<Op>)
    ensures Then(Plan(done, true), Plan([], true)) == Plan(done, true)
  {
    assert done + [] == done;
  }

  /** One round adds one name, or none. */
  lemma {:induction false} LandedOne(t: Tools, d: Disk, p: Piece)
    requires Inv(t, d)
    ensures var r := LandPiece(t, d, p);
            && Inv(t, Do(d, r))
            && |Contents(Do(d, r))| == |Contents(d)| + if r.ok && Obj(p.digest) !in d.shared then 1 else 0
  {
    var r := LandPiece(t, d, p);
    LandPieceEffect(t, d, p);
    LegalKeeps(t, d, r.ops);
    InContents(d, p.digest);
    if p.digest !in Contents(d) { AddedCard(Contents(d), p.digest, p.bytes); }
  }

  lemma {:induction false} AddedCard(c: map<Digest, Bytes>, g: Digest, bytes: Bytes)
    requires g !in c
    ensures |c[g := bytes]| == |c| + 1
  {
    assert c[g := bytes].Keys == c.Keys + {g};
    assert |c[g := bytes]| == |c[g := bytes].Keys|;
  }

  /** The counter of a landing loop is the growth of the store, however the loop ends. */
  lemma {:induction false} PlacedIsGrowth(t: Tools, d: Disk, ps: seq<Piece>)
    requires Inv(t, d)
    ensures Placed(t, d, ps) == |Contents(Do(d, LandPieces(t, d, ps)))| - |Contents(d)|
    decreases |ps|
  {
    if ps != [] {
      var first := LandPiece(t, d, ps[0]);
      LandedOne(t, d, ps[0]);
      PlacedIsGrowth(t, Do(d, first), ps[1..]);
      RunConcat(d, first.ops, LandPieces(t, Do(d, first), ps[1..]).ops);
    }
  }

  /** How many objects a fetch loop places. */
  function Fetched(t: Tools, d: Disk, ranges: seq<Range>, fetch: (int, int) -> Bytes, order: seq<nat>): (n: nat)
    decreases |order|
  {
    if order == [] then 0
    else if order[0] >= |ranges| then Fetched(t, d, ranges, fetch, order[1..])
    else
      var buf := Response(ranges, fetch, order[0]);
      if |buf| != ranges[order[0]].Size() then 0
      else
        var ps := RangePieces(buf, ranges[order[0]].objs);
        var first := LandPieces(t, d, ps);
        Placed(t, d, ps) + if first.ok then Fetched(t, Do(d, first), ranges, fetch, order[1..]) else 0
  }

  lemma {:induction false} LandedAll(t: Tools, d: Disk, ps: seq<Piece>)
    requires Inv(t, d)
    ensures Inv(t, Do(d, LandPieces(t, d, ps)))
    ensures Placed(t, d, ps) == |Contents(Do(d, LandPieces(t, d, ps)))| - |Contents(d)|
  {
    PlacedIsGrowth(t, d, ps);
    LandPiecesEffect(t, d, ps);
    LegalKeeps(t, d, LandPieces(t, d, ps).ops);
  }

  /** The tally of a fetch loop is the growth of the store, however the loop ends. */
  lemma {:induction false} FetchedIsGrowth(t: Tools, d: Disk, ranges: seq<Range>, fetch: (int, int) -> Bytes,
                                           order: seq<nat>)
    requires Inv(t, d)
    ensures Fetched(t, d, ranges, fetch, order)
         == |Contents(Do(d, LandRanges(t, d, ranges, fetch, order)))| - |Contents(d)|
    decreases |order|
  {
    if order != [] {
      if order[0] >= |ranges| {
        FetchedIsGrowth(t, d, ranges, fetch, order[1..]);
      } else {
        var ps := RangePieces(Response(ranges, fetch, order[0]), ranges[order[0]].objs);
        var first := LandPieces(t, d, ps);
        LandedAll(t, d, ps);
        FetchedIsGrowth(t, Do(d, first), ranges, fetch, order[1..]);
        RunConcat(d, first.ops, LandRanges(t, Do(d, first), ranges, fetch, order[1..]).ops);
      }
    }
  }

  /** A fetch loop after one more buffer of the right size. */
  lemma {:induction false} FetchStep(t: Tools, d: Disk, ranges: seq<Range>, fetch: (int, int) -> Bytes, i: nat,
                                     rest: seq<nat>, done: seq<Op>)
    requires i < |ranges| && |Response(ranges, fetch, i)| == ranges[i].Size()
    ensures var ps := RangePieces(Response(ranges, fetch, i), ranges[i].objs);
            var first := LandPieces(t, d, ps);
            && Then(Plan(done, true), LandRanges(t, d, ranges, fetch, [i] + rest))
               == Then(Plan(done + first.ops, first.ok), LandRanges(t, Do(d, first), ranges, fetch, rest))
            && Fetched(t, d, ranges, fetch, [i] + rest)
               == Placed(t, d, ps) + if first.ok then Fetched(t, Do(d, first), ranges, fetch, rest) else 0
  {
    var first := LandPieces(t, d, RangePieces(Response(ranges, fetch, i), ranges[i].objs));
    assert ([i] + rest)[1..] == rest;
    ThenAssoc(Plan(done, true), first, LandRanges(t, Do(d, first), ranges, fetch, rest));
  }

  lemma {:induction false} SkipStep(t: Tools, d: Disk, ranges: seq<Range>, fetch: (int, int) -> Bytes, i: nat,
                                    rest: seq<nat>)
    ensures i >= |ranges| ==>
              && LandRanges(t, d, ranges, fetch, [i] + rest) == LandRanges(t, d, ranges, fetch, rest)
              && Fetched(t, d, ranges, fetch, [i] + rest) == Fetched(t, d, ranges, fetch, rest)
    ensures i < |ranges| && |Response(ranges, fetch, i)| != ranges[i].Size() ==>
              && LandRanges(t, d, ranges, fetch, [i] + rest) == Plan([], false)
              && Fetched(t, d, ranges, fetch, [i] + rest) == 0
  {
    assert ([i] + rest)[1..] == rest;
  }

  lemma {:induction false} LinkStep(d: Disk, id: Id, refs: seq<Digest>, i: nat, done: seq<Op>)
    requires i < |refs|
    ensures var first := LinkOne(d, id, refs[i]);
            done + LinkRefs(d, id, refs[i..]) == (done + first) + LinkRefs(Run(d, first), id, refs[i + 1..])
  {
    assert refs[i..][1..] == refs[i + 1..];
    Reassociated(done, LinkOne(d, id, refs[i]), LinkRefs(Run(d, LinkOne(d, id, refs[i])), id, refs[i + 1..]));
  }

  lemma {:induction false} SweepStep(d: Disk, names: seq<Name>, i: nat, done: seq<Op>)
    requires i < |names|
    ensures var first := SweepOne(d, names[i]);
            done + Sweep(d, names[i..]) == (done + first) + Sweep(Run(d, first), names[i + 1..])
  {
    assert names[i..][1..] == names[i + 1..];
    Reassociated(done, SweepOne(d, names[i]), Sweep(Run(d, SweepOne(d, names[i])), names[i + 1..]));
  }

  lemma {:induction false} Reassociated(a: seq<Op>, b: seq<Op>, c: seq<Op>)
    ensures a + (b + c) == (a + b) + c
  {
  }

  /** The sweep's counter is what the store has lost. */
  lemma {:induction false} SweptCount(t: Tools, d: Disk)
    requires Inv(t, d)
    ensures var m := Run(d, RmTrees(Stale(t, d)));
            |Sweep(m, t.walk(m.shared.Keys))| == |d.shared| - |Run(d, Gc(t, d)).shared|
  {
    var m := Run(d, RmTrees(Stale(t, d)));
    GcLegal(t, d);
    RmTreesEffect(d, Stale(t, d));
    SweepEffect(t, m, t.walk(m.shared.Keys));
    RunConcat(d, RmTrees(Stale(t, d)), Sweep(m, t.walk(m.shared.Keys)));
  }

  lemma {:induction false} SweptNames(t: Tools, d: Disk, names: seq<Name>)
    ensures Inv(t, d) ==> |Sweep(d, names)| == |d.shared| - |Run(d, Sweep(d, names)).shared|
  {
    if Inv(t, d) { SweepEffect(t, d, names); }
  }

  lemma {:induction false} TempIsNoObject(d: Disk, n: Name, bytes: Bytes, g: Digest)
    requires !n.Obj?
    ensures Obj(g) in Apply(d, WriteTemp(n, bytes)).shared <==> Obj(g) in d.shared
  {
  }

  /** The number of objects placed is the same in every completion order in which, and so if, the landing returns. */
  lemma {:induction false} TallyForgetsOrder(t: Tools, d: Disk, want: seq<Entry>, gap: nat, fetch: (int, int) -> Bytes,
                                             a: seq<nat>, b: seq<nat>)
    requires Inv(t, d) && DistinctDigests(want)
    requires Completes(a, |Coalesced(want, gap)|) && Completes(b, |Coalesced(want, gap)|)
    requires LandRanges(t, d, Coalesced(want, gap), fetch, a).ok
    ensures Fetched(t, d, Coalesced(want, gap), fetch, a) == Fetched(t, d, Coalesced(want, gap), fetch, b)
  {
    CompletionOrderIrrelevant(t, d, want, gap, fetch, a, b);
    FetchedIsGrowth(t, d, Coalesced(want, gap), fetch, a);
    FetchedIsGrowth(t, d, Coalesced(want, gap), fetch, b);
  }

  class Host {
    const tools: Tools
    ghost const start: Disk
    var disk: Disk
    /** Every operation carried out so far. */
    ghost var journal: seq<Op>

    ghost predicate Valid()
      reads this
    {
      disk == Run(start, journal)
    }

    /** Since the disk was `d` and the journal `was`, exactly `ops` have been carried out. */
    ghost predicate Since(d: Disk, was: seq<Op>, ops: seq<Op>)
      reads this
    {
      Valid() && d == Run(start, was) && journal == was + ops && disk == Run(d, ops)
    }

    constructor (tools: Tools, disk: Disk)
      ensures Valid() && this.tools == tools && this.disk == disk && journal == []
    {
      this.tools, this.start, this.disk, this.journal := tools, disk, disk, [];
    }

    lemma {:induction false} Journaled(d: Disk, was: seq<Op>, ops: seq<Op>)
      requires Valid() && d == Run(start, was) && journal == was + ops
      ensures Since(d, was, ops)
    {
      RunConcat(start, was, ops);
    }

    /** `a` and then `b`. */
    lemma {:induction false} Joined(d: Disk, was: seq<Op>, a: seq<Op>, b: seq<Op>)
      requires d == Run(start, was) && Since(Run(d, a), was + a, b)
      ensures Since(d, was, a + b)
    {
      RunConcat(d, a, b);
      Reassociated(was, a, b);
    }

    method Do(op: Op)
      requires Valid()
      modifies this
      ensures Since(old(disk), old(journal), [op]) && disk == Apply(old(disk), op)
    {
      RunConcat(start, journal, [op]);
      RunOne(disk, op);
      disk := Apply(disk, op);
      journal := journal + [op];
    }

    // --------------------------------------------------------- primitives

    method SetRole(role: Role, id: Id)
      requires Valid()
      modifies this
      ensures Since(old(disk), old(journal), Lifecycle.SetRole(old(disk), role, id))
      ensures disk == old(disk).(roles := old(disk).roles[role := id], roleTmps := old(disk).roleTmps - {role})
    {
      ghost var d, was := disk, journal;
      if role in disk.roleTmps {
        Do(UnlinkRoleTmp(role));
      }
      Do(SymlinkRoleTmp(role, id));
      Do(RenameRole(role));
      assert journal == was + Lifecycle.SetRole(d, role, id);
      Journaled(d, was, Lifecycle.SetRole(d, role, id));
      SetRoleEffect(tools, d, role, id);
    }

    method ClearRole(role: Role)
      requires Valid()
      modifies this
      ensures Since(old(disk), old(journal), Lifecycle.ClearRole(old(disk), role))
      ensures disk == old(disk).(roles := old(disk).roles - {role})
    {
      ghost var d, was := disk, journal;
      if role in disk.roles {
        Do(UnlinkRole(role));
      }
      assert journal == was + Lifecycle.ClearRole(d, role);
      Journaled(d, was, Lifecycle.ClearRole(d, role));
      ClearRoleEffect(d, role);
    }

    /** `atomic_copy` onto the ESP. */
    method AtomicCopy(image: Image, target: EspName)
      requires Valid() && (target == CurrentEfi || target == FallbackEfi)
      modifies this
      ensures Since(old(disk), old(journal), CopyEsp(target, image))
      ensures disk == old(disk).(esp := (old(disk).esp - {TmpOf(target)})[target := image])
    {
      ghost var d, was := disk, journal;
      Do(WriteEsp(TmpOf(target), image));
      Do(RenameEsp(TmpOf(target), target));
      assert journal == was + CopyEsp(target, image);
      Journaled(d, was, CopyEsp(target, image));
      CopyEspEffect(d, target, image);
    }

    // ------------------------------------------------------------ landing

    /** `place_object`: `ok` is false when it dies, `placed` is what it returns. */
    method PlaceObject(temp: Name, g: Digest) returns (ok: bool, placed: bool)
      requires Valid()
      modifies this
      ensures Since(old(disk), old(journal), Objects.PlaceObject(tools, old(disk), temp, g).ops)
      ensures ok == Objects.PlaceObject(tools, old(disk), temp, g).ok
      ensures placed <==> ok && Obj(g) !in old(disk).shared
      ensures Inv(tools, old(disk)) && !temp.Obj? && temp in old(disk).shared ==>
                PlaceLeft(tools, old(disk), temp, g, ok, disk)
    {
      ghost var d, was := disk, journal;
      if Inv(tools, d) && !temp.Obj? && temp in d.shared { PlaceObjectEnds(tools, d, temp, g); }
      if Obj(g) in disk.shared {
        Journaled(d, was, []);
        return true, false;
      }
      if !(temp in disk.shared && disk.shared[temp] in disk.inodes)
         || tools.measure(disk.inodes[disk.shared[temp]].bytes) != g {
        Journaled(d, was, []);
        return false, false;
      }
      Do(PlaceTemp(temp, g));
      Do(Seal(g));
      assert journal == was + [PlaceTemp(temp, g), Seal(g)];
      Journaled(d, was, [PlaceTemp(temp, g), Seal(g)]);
      return true, true;
    }

    /** One round of the landing loops: skip what is there, write the temporary, place it. */
    method LandOne(p: Piece) returns (ok: bool, placed: bool)
      requires Valid()
      modifies this
      ensures Since(old(disk), old(journal), LandPiece(tools, old(disk), p).ops)
      ensures ok == LandPiece(tools, old(disk), p).ok
      ensures placed <==> ok && Obj(p.digest) !in old(disk).shared
    {
      ghost var d, was := disk, journal;
      if Obj(p.digest) in disk.shared {
        Journaled(d, was, []);
        return true, false;
      }
      Do(WriteTemp(p.Temp(), p.bytes));
      TempIsNoObject(d, p.Temp(), p.bytes, p.digest);
      ok, placed := PlaceObject(p.Temp(), p.digest);
      assert journal == was + LandPiece(tools, d, p).ops;
      Journaled(d, was, LandPiece(tools, d, p).ops);
    }

    /** In a landing loop over `ps`: `done` has been carried out, `count` placed, and `rest` is still to come. */
    ghost predicate Amid(d: Disk, was: seq<Op>, ps: seq<Piece>, done: seq<Op>, count: nat, rest: seq<Piece>)
      reads this
    {
      && Since(d, was, done)
      && Then(Plan(done, true), LandPieces(tools, disk, rest)) == LandPieces(tools, d, ps)
      && count + Placed(tools, disk, rest) == Placed(tools, d, ps)
    }

    /** A landing loop over `ps` has ended, by finishing or by dying. */
    ghost predicate Over(d: Disk, was: seq<Op>, ps: seq<Piece>, ok: bool, count: nat)
      reads this
    {
      && Since(d, was, LandPieces(tools, d, ps).ops)
      && ok == LandPieces(tools, d, ps).ok && count == Placed(tools, d, ps)
    }

    lemma {:induction false} LoopStarts(ps: seq<Piece>)
      requires Valid()
      ensures Amid(disk, journal, ps, [], 0, ps)
    {
      Journaled(disk, journal, []);
      assert [] + LandPieces(tools, disk, ps).ops == LandPieces(tools, disk, ps).ops;
    }

    lemma {:induction false} LoopEnds(d: Disk, was: seq<Op>, ps: seq<Piece>, done: seq<Op>, count: nat)
      requires Amid(d, was, ps, done, count, [])
      ensures Over(d, was, ps, true, count)
    {
      ThenNothing(done);
    }

    /** A round from disk `m`: the loop goes on, or it is over. */
    lemma {:induction false} RoundEnds(m: Disk, p: Piece, d: Disk, was: seq<Op>, ps: seq<Piece>, done: seq<Op>,
                                       count: nat, rest: seq<Piece>)
      requires d == Run(start, was) && m == Run(d, done) && Since(m, was + done, LandPiece(tools, m, p).ops)
      requires Then(Plan(done, true), LandPieces(tools, m, [p] + rest)) == LandPieces(tools, d, ps)
      requires count + Placed(tools, m, [p] + rest) == Placed(tools, d, ps)
      ensures var first := LandPiece(tools, m, p);
              var total := count + if first.ok && Obj(p.digest) !in m.shared then 1 else 0;
              if first.ok then Amid(d, was, ps, done + first.ops, total, rest) else Over(d, was, ps, false, total)
    {
      LandStep(tools, m, p, rest, done);
      Joined(d, was, done, LandPiece(tools, m, p).ops);
    }

    method Round(p: Piece, count: nat, ghost d: Disk, ghost was: seq<Op>, ghost ps: seq<Piece>, ghost done: seq<Op>,
                 ghost rest: seq<Piece>)
      returns (ok: bool, total: nat, ghost after: seq<Op>)
      requires Valid() && Amid(d, was, ps, done, count, [p] + rest)
      modifies this
      ensures Valid() && (if ok then Amid(d, was, ps, after, total, rest) else Over(d, was, ps, false, total))
    {
      ghost var m := disk;
      var placed;
      ok, placed := LandOne(p);
      RoundEnds(m, p, d, was, ps, done, count, rest);
      after := done + LandPiece(tools, m, p).ops;
      total := count + if placed then 1 else 0;
    }

    lemma {:induction false} LoopOutcome(d: Disk, ps: seq<Piece>)
      ensures Inv(tools, d) ==>
                LoopLeft(tools, d, ps, LandPieces(tools, d, ps).ok, Run(d, LandPieces(tools, d, ps).ops))
                && Placed(tools, d, ps) == |Contents(Run(d, LandPieces(tools, d, ps).ops))| - |Contents(d)|
    {
      if Inv(tools, d) {
        LandPiecesEnd(tools, d, ps);
        PlacedIsGrowth(tools, d, ps);
      }
    }

    /** `land_from_dir`, over the files in the order the walk finds them. */
    method LandFromDir(files: seq<(Digest, Bytes)>) returns (ok: bool, count: nat)
      requires Valid()
      modifies this
      ensures Over(old(disk), old(journal), TreePieces(files), ok, count)
      ensures Inv(tools, old(disk)) ==>
                LoopLeft(tools, old(disk), TreePieces(files), ok, disk)
                && count == |Contents(disk)| - |Contents(old(disk))|
    {
      ghost var d, was, done := disk, journal, [];
      ok, count := true, 0;
      LoopOutcome(d, TreePieces(files));
      LoopStarts(TreePieces(files));
      assert files[0..] == files;
      for i := 0 to |files|
        invariant ok && Amid(d, was, TreePieces(files), done, count, TreePieces(files[i..]))
      {
        TreePiecesStep(files, i);
        ok, count, done := Round(Piece(files[i].0, files[i].1, true), count, d, was, TreePieces(files), done,
                                 TreePieces(files[i + 1..]));
        if !ok {
          return;
        }
      }
      LoopEnds(d, was, TreePieces(files), done, count);
    }

    /** `_place_from_buffer`. */
    method PlaceFromBuffer(buf: Bytes, objs: seq<Entry>) returns (ok: bool, count: nat)
      requires Valid()
      modifies this
      ensures Over(old(disk), old(journal), RangePieces(buf, objs), ok, count)
      ensures Inv(tools, old(disk)) ==>
                LoopLeft(tools, old(disk), RangePieces(buf, objs), ok, disk)
                && count == |Contents(disk)| - |Contents(old(disk))|
    {
      ghost var d, was, done := disk, journal, [];
      ok, count := true, 0;
      LoopOutcome(d, RangePieces(buf, objs));
      LoopStarts(RangePieces(buf, objs));
      assert objs[0..] == objs;
      for i := 0 to |objs|
        invariant ok && Amid(d, was, RangePieces(buf, objs), done, count, RangePieces(buf, objs[i..]))
      {
        RangePiecesStep(buf, objs, i);
        ok, count, done := Round(PieceOf(buf, objs[i]), count, d, was, RangePieces(buf, objs), done,
                                 RangePieces(buf, objs[i + 1..]));
        if !ok {
          return;
        }
      }
      LoopEnds(d, was, RangePieces(buf, objs), done, count);
    }

    /** In a fetch loop: `done` has been carried out, `count` placed, and the completions `rest` are to come. */
    ghost predicate Fetching(d: Disk, was: seq<Op>, ranges: seq<Range>, fetch: (int, int) -> Bytes, order: seq<nat>,
                             done: seq<Op>, count: nat, rest: seq<nat>)
      reads this
    {
      && Since(d, was, done)
      && Then(Plan(done, true), LandRanges(tools, disk, ranges, fetch, rest))
         == LandRanges(tools, d, ranges, fetch, order)
      && count + Fetched(tools, disk, ranges, fetch, rest) == Fetched(tools, d, ranges, fetch, order)
    }

    ghost predicate FetchOver(d: Disk, was: seq<Op>, ranges: seq<Range>, fetch: (int, int) -> Bytes, order: seq<nat>,
                              ok: bool, count: nat)
      reads this
    {
      && Since(d, was, LandRanges(tools, d, ranges, fetch, order).ops)
      && ok == LandRanges(tools, d, ranges, fetch, order).ok && count == Fetched(tools, d, ranges, fetch, order)
    }

    lemma {:induction false} FetchStarts(ranges: seq<Range>, fetch: (int, int) -> Bytes, order: seq<nat>)
      requires Valid()
      ensures Fetching(disk, journal, ranges, fetch, order, [], 0, order)
    {
      Journaled(disk, journal, []);
      assert [] + LandRanges(tools, disk, ranges, fetch, order).ops
          == LandRanges(tools, disk, ranges, fetch, order).ops;
    }

    lemma {:induction false} FetchEnds(d: Disk, was: seq<Op>, ranges: seq<Range>, fetch: (int, int) -> Bytes,
                                       order: seq<nat>, done: seq<Op>, count: nat)
      requires Fetching(d, was, ranges, fetch, order, done, count, [])
      ensures FetchOver(d, was, ranges, fetch, order, true, count)
    {
      ThenNothing(done);
    }

    /** A completed fetch of the wrong size ends the loop; an index of no range is passed over. */
    lemma {:induction false} FetchSkips(d: Disk, was: seq<Op>, ranges: seq<Range>, fetch: (int, int) -> Bytes,
                                        order: seq<nat>, done: seq<Op>, count: nat, i: nat, rest: seq<nat>)
      requires Fetching(d, was, ranges, fetch, order, done, count, [i] + rest)
      ensures i >= |ranges| ==> Fetching(d, was, ranges, fetch, order, done, count, rest)
      ensures i < |ranges| && |Response(ranges, fetch, i)| != ranges[i].Size() ==>
                FetchOver(d, was, ranges, fetch, order, false, count)
    {
      SkipStep(tools, disk, ranges, fetch, i, rest);
      assert done + [] == done;
    }

    /** A buffer has been placed, from disk `m`, or has killed the loop. */
    lemma {:induction false} FetchPlaced(m: Disk, d: Disk, was: seq<Op>, ranges: seq<Range>, fetch: (int, int) -> Bytes,
                                         order: seq<nat>, done: seq<Op>, count: nat, i: nat, rest: seq<nat>, ok: bool,
                                         k: nat)
      requires i < |ranges| && |Response(ranges, fetch, i)| == ranges[i].Size()
      requires d == Run(start, was) && m == Run(d, done)
      requires Over(m, was + done, RangePieces(Response(ranges, fetch, i), ranges[i].objs), ok, k)
      requires Then(Plan(done, true), LandRanges(tools, m, ranges, fetch, [i] + rest))
            == LandRanges(tools, d, ranges, fetch, order)
      requires count + Fetched(tools, m, ranges, fetch, [i] + rest) == Fetched(tools, d, ranges, fetch, order)
      ensures var first := LandPieces(tools, m, RangePieces(Response(ranges, fetch, i), ranges[i].objs));
              if ok then Fetching(d, was, ranges, fetch, order, done + first.ops, count + k, rest)
              else FetchOver(d, was, ranges, fetch, order, false, count + k)
    {
      FetchStep(tools, m, ranges, fetch, i, rest, done);
      Joined(d, was, done, LandPieces(tools, m, RangePieces(Response(ranges, fetch, i), ranges[i].objs)).ops);
    }

    /** What a fetch loop leaves: as many objects more as it counts, and no temporary but that of what killed it. */
    ghost predicate FetchLeft(d: Disk, ok: bool, count: nat, r: Disk) {
      && count == |Contents(r)| - |Contents(d)|
      && (ok ==> Temps(r) <= Temps(d)) && AtMostOneLeft(tools, d, r)
    }

    lemma {:induction false} FetchOutcome(d: Disk, ranges: seq<Range>, fetch: (int, int) -> Bytes, order: seq<nat>)
      ensures var p := LandRanges(tools, d, ranges, fetch, order);
              Inv(tools, d) ==> FetchLeft(d, p.ok, Fetched(tools, d, ranges, fetch, order), Run(d, p.ops))
    {
      if Inv(tools, d) {
        FetchedIsGrowth(tools, d, ranges, fetch, order);
        RangesLeave(tools, d, ranges, fetch, order);
      }
    }

    /** `_land_pack_by_range`; `order` is the order in which the fetches complete. */
    method LandPackByRange(ranges: seq<Range>, fetch: (int, int) -> Bytes, order: seq<nat>)
      returns (ok: bool, fetched: nat)
      requires Valid()
      modifies this
      ensures FetchOver(old(disk), old(journal), ranges, fetch, order, ok, fetched)
      ensures Inv(tools, old(disk)) ==> FetchLeft(old(disk), ok, fetched, disk)
    {
      ghost var d, was, done := disk, journal, [];
      ok, fetched := true, 0;
      FetchOutcome(d, ranges, fetch, order);
      FetchStarts(ranges, fetch, order);
      assert order[0..] == order;
      for j := 0 to |order|
        invariant ok && Fetching(d, was, ranges, fetch, order, done, fetched, order[j..])
      {
        var i := order[j];
        assert order[j..] == [i] + order[j + 1..];
        FetchSkips(d, was, ranges, fetch, order, done, fetched, i, order[j + 1..]);
        if i < |ranges| {
          var buf := fetch(ranges[i].start, ranges[i].end);
          if |buf| != ranges[i].Size() {
            return false, fetched;
          }
          ghost var m := disk;
          var k;
          ok, k := PlaceFromBuffer(buf, ranges[i].objs);
          FetchPlaced(m, d, was, ranges, fetch, order, done, fetched, i, order[j + 1..], ok, k);
          done := done + LandPieces(tools, m, RangePieces(buf, ranges[i].objs)).ops;
          fetched := fetched + k;
          if !ok {
            return;
          }
        }
      }
      FetchEnds(d, was, ranges, fetch, order, done, fetched);
    }

    /** `land_from_pack`: parse the index, take what is missing, coalesce it, fetch and place. */
    method LandFromPack(refs: seq<Digest>, s: Supply) returns (ok: bool, present: nat, fetched: nat)
      requires Valid() && s.Blob?
      modifies this
      ensures Since(old(disk), old(journal), Transfer.LandFromPack(tools, old(disk), refs, s).ops)
      ensures ok == Transfer.LandFromPack(tools, old(disk), refs, s).ok
      ensures ok ==> present == CountPresent(refs, Digests(old(disk)))
      ensures Inv(tools, old(disk)) ==> fetched == |Contents(disk)| - |Contents(old(disk))|
      ensures Inv(tools, old(disk)) && SupplyOk(s) && NoDup(refs) ==> (ok <==> SupplyLands(tools, old(disk), refs, s))
    {
      ghost var d, was := disk, journal;
      if Inv(tools, d) && SupplyOk(s) && NoDup(refs) { LandingReturns(tools, d, refs, s); }
      var index := ParseIndex(s.indexText);
      if index.None? {
        Journaled(d, was, []);
        return false, 0, 0;
      }
      var have := Digests(disk);
      var want, inlined;
      want, inlined, present := MissingObjects(refs, have, index.value);
      var ranges := CoalesceRanges(want, s.gap);
      ok, fetched := LandPackByRange(ranges, s.fetch, s.order(|ranges|));
    }

    /** `_land_objects`. */
    method LandObjects(refs: seq<Digest>, s: Supply) returns (ok: bool)
      requires Valid()
      modifies this
      ensures Since(old(disk), old(journal), LandSupply(tools, old(disk), refs, s).ops)
      ensures ok == LandSupply(tools, old(disk), refs, s).ok
      ensures Inv(tools, old(disk)) && SupplyOk(s) && NoDup(refs) ==>
                && (ok <==> SupplyLands(tools, old(disk), refs, s))
                && (ok ==> Temps(disk) <= Temps(old(disk))) && AtMostOneLeft(tools, old(disk), disk)
    {
      ghost var d, was := disk, journal;
      if Inv(tools, d) && SupplyOk(s) && NoDup(refs) {
        LandingReturns(tools, d, refs, s);
        LandingLeaves(tools, d, refs, s);
      }
      match s
      case Tree(files) =>
        var count;
        ok, count := LandFromDir(files);
      case Blob(_, _, _, _) =>
        var present, fetched;
        ok, present, fetched := LandFromPack(refs, s);
      case Nothing =>
        Journaled(d, was, []);
        ok := false;
    }

    // ----------------------------------------------------- holders and gc

    method LinkIfMissing(id: Id, g: Digest) returns (linked: nat)
      requires Valid()
      modifies this
      ensures Since(old(disk), old(journal), LinkOne(old(disk), id, g)) && linked == |LinkOne(old(disk), id, g)|
    {
      if id in disk.dirs && Obj(g) in disk.shared && g !in disk.dirs[id].holder {
        Do(Link(id, g));
        return 1;
      }
      Journaled(disk, journal, []);
      return 0;
    }

    /** `link_holder`. */
    method LinkHolder(id: Id, refs: seq<Digest>) returns (linked: nat)
      requires Valid()
      modifies this
      ensures Since(old(disk), old(journal), LinkRefs(old(disk), id, refs))
      ensures linked == |LinkRefs(old(disk), id, refs)|
      ensures id in old(disk).dirs ==>
                id in disk.dirs && linked == |disk.dirs[id].holder| - |old(disk).dirs[id].holder|
    {
      ghost var d, was, done := disk, journal, [];
      linked := 0;
      if id in d.dirs { LinkCount(d, id, refs); }
      Journaled(d, was, []);
      assert refs[0..] == refs;
      for i := 0 to |refs|
        invariant Since(d, was, done) && linked == |done|
        invariant LinkRefs(d, id, refs) == done + LinkRefs(disk, id, refs[i..])
      {
        LinkStep(disk, id, refs, i, done);
        ghost var first := LinkOne(disk, id, refs[i]);
        var n := LinkIfMissing(id, refs[i]);
        Joined(d, was, done, first);
        done, linked := done + first, linked + n;
      }
      assert done + [] == done;
    }

    method UnlinkIfOrphan(n: Name) returns (swept: nat)
      requires Valid()
      modifies this
      ensures Since(old(disk), old(journal), SweepOne(old(disk), n)) && swept == |SweepOne(old(disk), n)|
    {
      if n in disk.shared && disk.shared[n] in disk.inodes && disk.inodes[disk.shared[n]].links == 1 {
        Do(Unlink(n));
        return 1;
      }
      Journaled(disk, journal, []);
      return 0;
    }

    /** `sweep_orphans`: what the walk finds with a link count of one goes. */
    method SweepOrphans() returns (swept: nat)
      requires Valid()
      modifies this
      ensures Since(old(disk), old(journal), Sweep(old(disk), tools.walk(old(disk).shared.Keys)))
      ensures swept == |Sweep(old(disk), tools.walk(old(disk).shared.Keys))|
      ensures Inv(tools, old(disk)) ==> swept == |old(disk).shared| - |disk.shared|
    {
      ghost var d, was, done := disk, journal, [];
      var names := tools.walk(disk.shared.Keys);
      SweptNames(tools, d, names);
      swept := 0;
      Journaled(d, was, []);
      assert names[0..] == names;
      for i := 0 to |names|
        invariant Since(d, was, done) && swept == |done|
        invariant Sweep(d, names) == done + Sweep(disk, names[i..])
      {
        SweepStep(disk, names, i, done);
        ghost var first := SweepOne(disk, names[i]);
        var n := UnlinkIfOrphan(names[i]);
        Joined(d, was, done, first);
        done, swept := done + first, swept + n;
      }
      assert done + [] == done;
    }

    /** `_collect_stale`. */
    method CollectStale() returns (stale: seq<Id>)
      ensures stale == Stale(tools, disk)
      ensures ToolsOk(tools) ==> forall z :: z in stale <==> z in disk.dirs && PlainName(z) && !RoleHeld(disk.roles, z)
      ensures ToolsOk(tools) ==> NoDup(stale) && Sorted(stale, StrLe)
    {
      var roles := disk.roles;
      var protected := (if Current in roles then {roles[Current]} else {})
        + (if Fallback in roles then {roles[Fallback]} else {}) + (if Staging in roles then {roles[Staging]} else {});
      var names := Sort(tools.readdir(disk.dirs.Keys), StrLe);
      stale := [];
      for i := 0 to |names|
        invariant stale == Unheld(disk, names[..i])
      {
        assert names[..i + 1][..i] == names[..i] && names[..i + 1][i] == names[i];
        if PlainName(names[i]) && names[i] !in protected {
          stale := stale + [names[i]];
        }
      }
      assert names[..|names|] == names;
      if ToolsOk(tools) {
        StaleOrdered(tools, disk);
        forall z ensures z in stale <==> z in disk.dirs && PlainName(z) && !RoleHeld(disk.roles, z) {
          StaleMembers(tools, disk, z);
        }
      }
    }

    method RemoveTrees(stale: seq<Id>)
      requires Valid()
      modifies this
      ensures Since(old(disk), old(journal), RmTrees(stale))
    {
      ghost var d, was := disk, journal;
      Journaled(d, was, []);
      assert RmTrees(stale[..0]) == [];
      for i := 0 to |stale|
        invariant Since(d, was, RmTrees(stale[..i]))
      {
        Do(RmTree(stale[i]));
        Joined(d, was, RmTrees(stale[..i]), [RmTree(stale[i])]);
        assert RmTrees(stale[..i + 1]) == RmTrees(stale[..i]) + [RmTree(stale[i])];
      }
      assert stale[..|stale|] == stale;
    }

    /** `gc`: remove what no role names, then what no holder names. */
    method CollectGarbage() returns (removed: nat, swept: nat)
      requires Valid()
      modifies this
      ensures Since(old(disk), old(journal), Gc(tools, old(disk)))
      ensures removed == |Stale(tools, old(disk))|
      ensures ToolsOk(tools) && Inv(tools, old(disk)) ==>
                removed == |old(disk).dirs| - |disk.dirs| && Leaves(tools, old(disk), GcCmd, disk)
      ensures Inv(tools, old(disk)) ==> swept == |old(disk).shared| - |disk.shared|
    {
      ghost var d, was := disk, journal;
      var stale := CollectStale();
      RemoveTrees(stale);
      ghost var m := disk;
      swept := SweepOrphans();
      removed := |stale|;
      Joined(d, was, RmTrees(stale), Sweep(m, tools.walk(m.shared.Keys)));
      if Inv(tools, d) { SweptCount(tools, d); }
      if ToolsOk(tools) && Inv(tools, d) { GcOutcome(tools, d); }
    }

    // ------------------------------------------------------------- building

    /** `_place_root_cfs`. */
    method PlaceRootCfs(s: Source) returns (ok: bool)
      requires Valid()
      modifies this
      ensures Since(old(disk), old(journal), PlaceCfs(tools, s).ops) && ok == PlaceCfs(tools, s).ok
      ensures ok <==> tools.measure(s.cfs) == s.digest
      ensures s.id in old(disk).dirs ==>
                disk == SetDir(old(disk), s.id, old(disk).dirs[s.id].(cfs := Some(s.cfs), sealed := true))
    {
      ghost var d, was := disk, journal;
      Do(CopyCfs(s.id, s.cfs));
      Do(SealCfs(s.id));
      assert journal == was + [CopyCfs(s.id, s.cfs), SealCfs(s.id)];
      Journaled(d, was, [CopyCfs(s.id, s.cfs), SealCfs(s.id)]);
      ok := tools.measure(s.cfs) == s.digest;
    }

    /** Holder, UKI, loader: the last part of `materialize`. */
    method FinishBuild(s: Source)
      requires Valid() && s.uki.Some?
      modifies this
      ensures Since(old(disk), old(journal), Finish(tools, old(disk), s))
    {
      ghost var d, was := disk, journal;
      ghost var links := LinkRefs(d, s.id, tools.refs(s.cfs));
      var linked := LinkHolder(s.id, tools.refs(s.cfs));
      Do(CopyUki(s.id, s.uki.value));
      Joined(d, was, links, [CopyUki(s.id, s.uki.value)]);
      if s.loader.Some? {
        Do(CopyLoader(s.id, s.loader.value));
        Joined(d, was, links + [CopyUki(s.id, s.uki.value)], [CopyLoader(s.id, s.loader.value)]);
      } else {
        assert Finish(tools, d, s) == links + [CopyUki(s.id, s.uki.value)];
      }
    }

    method BuildDeployment(s: Source) returns (ok: bool)
      requires Valid() && s.uki.Some?
      modifies this
      ensures Since(old(disk), old(journal), Build(tools, old(disk), s).ops) && ok == Build(tools, old(disk), s).ok
    {
      ghost var d, was := disk, journal;
      ok := PlaceRootCfs(s);
      if ok {
        ghost var m := disk;
        FinishBuild(s);
        Joined(d, was, PlaceCfs(tools, s).ops, Finish(tools, m, s));
      }
    }

    /** `materialize`. */
    method Materialize(s: Source) returns (ok: bool)
      requires Valid()
      modifies this
      ensures Since(old(disk), old(journal), Lifecycle.Materialize(tools, old(disk), s).ops)
      ensures ok == Lifecycle.Materialize(tools, old(disk), s).ok
      ensures ToolsOk(tools) && Inv(tools, old(disk)) && SourceOk(tools, s) && !HasCfs(old(disk), s.id) ==>
                && (ok <==> Buildable(tools, old(disk), s))
                && (if s.uki.None? then disk == old(disk) else BuildLeft(tools, old(disk), s, disk))
    {
      ghost var d, was := disk, journal;
      if ToolsOk(tools) && Inv(tools, d) && SourceOk(tools, s) && !HasCfs(d, s.id) { MaterializeOutcome(tools, d, s); }
      if s.uki.None? {
        Journaled(d, was, []);
        return false;
      }
      Do(MkDir(s.id));
      ghost var m, x := disk, journal;
      ok := LandObjects(tools.refs(s.cfs), s.supply);
      ghost var l := Landed(tools, d, s);
      if !ok {
        Joined(d, was, [MkDir(s.id)], l.ops);
        return;
      }
      ghost var n := disk;
      ok := BuildDeployment(s);
      Joined(m, x, l.ops, Build(tools, n, s).ops);
      Joined(d, was, [MkDir(s.id)], l.ops + Build(tools, n, s).ops);
    }

    /** `stage`. */
    method Stage(s: Source) returns (ok: bool)
      requires Valid()
      modifies this
      ensures Since(old(disk), old(journal), Lifecycle.Stage(tools, old(disk), s).ops)
      ensures ok == Lifecycle.Stage(tools, old(disk), s).ok
      ensures ToolsOk(tools) && Inv(tools, old(disk)) && SourceOk(tools, s) ==>
                (ok <==> Stageable(tools, old(disk), s)) && StageLeft(tools, old(disk), s, disk)
    {
      ghost var d, was := disk, journal;
      if ToolsOk(tools) && Inv(tools, d) && SourceOk(tools, s) { StageOutcome(tools, d, s); }
      if HasCfs(disk, s.id) {
        SetRole(Staging, s.id);
        assert [] + Lifecycle.SetRole(d, Staging, s.id) == Lifecycle.SetRole(d, Staging, s.id);
        return true;
      }
      ok := Materialize(s);
      if ok {
        ghost var m := disk;
        SetRole(Staging, s.id);
        Joined(d, was, Lifecycle.Materialize(tools, d, s).ops, Lifecycle.SetRole(m, Staging, s.id));
      }
    }

    // ------------------------------------------------------------- commands

    /** The ESP half of `promote`. */
    method FlipEsp(id: Id, image: Image)
      requires Valid()
      modifies this
      ensures Since(old(disk), old(journal), PromoteEsp(old(disk), id, image))
    {
      ghost var d, was := disk, journal;
      Journaled(d, was, []);
      if Current in disk.roles && CurrentEfi in disk.esp {
        AtomicCopy(disk.esp[CurrentEfi], FallbackEfi);
      }
      ghost var m := disk;
      AtomicCopy(image, CurrentEfi);
      Joined(d, was, FallbackOps(d), CopyEsp(CurrentEfi, image));
      if id in disk.dirs && disk.dirs[id].loader.Some? {
        RefreshLoader(disk.dirs[id].loader.value);
        Joined(d, was, FallbackOps(d) + CopyEsp(CurrentEfi, image), LimineOps(d, id));
      } else {
        assert PromoteEsp(d, id, image) == FallbackOps(d) + CopyEsp(CurrentEfi, image);
      }
    }

    /** `atomic_copy` of the signed loader. */
    method RefreshLoader(loader: string)
      requires Valid()
      modifies this
      ensures Since(old(disk), old(journal), [WriteLimine(loader), RenameLimine])
    {
      ghost var d, was := disk, journal;
      Do(WriteLimine(loader));
      Do(RenameLimine);
      assert journal == was + [WriteLimine(loader), RenameLimine];
      Journaled(d, was, [WriteLimine(loader), RenameLimine]);
    }

    /** The role half. */
    method FlipRoles(id: Id)
      requires Valid()
      modifies this
      ensures Since(old(disk), old(journal), PromoteRoles(old(disk), id))
    {
      ghost var d, was := disk, journal;
      ghost var a := if Current in d.roles then Lifecycle.SetRole(d, Fallback, d.roles[Current]) else [];
      Journaled(d, was, []);
      if Current in disk.roles {
        SetRole(Fallback, disk.roles[Current]);
      }
      SetRole(Current, id);
      Joined(d, was, a, Lifecycle.SetRole(d, Current, id));
      ClearRole(Staging);
      Joined(d, was, a + Lifecycle.SetRole(d, Current, id), Lifecycle.ClearRole(d, Staging));
    }

    lemma {:induction false} PromoteSafely(d: Disk, id: Id)
      ensures var p := Lifecycle.Promote(tools, d, id);
              Consistent(tools, d) && NamedBy(d.roles, Staging, id) ==>
                Always(tools, d, p.ops) && Consistent(tools, Run(d, p.ops))
    {
      if Consistent(tools, d) && NamedBy(d.roles, Staging, id) {
        AlwaysPromote(tools, d, id);
        PromoteConsistent(tools, d, id);
      }
    }

    lemma {:induction false} PromoteEnds(d: Disk, id: Id)
      ensures var p := Lifecycle.Promote(tools, d, id);
              ToolsOk(tools) && Inv(tools, d) ==>
                && (p.ok <==> Get(d, Current) == Some(id) || Staged(d, id).Some?)
                && PromoteLeft(d, id, Run(d, p.ops))
    {
      if ToolsOk(tools) && Inv(tools, d) { PromoteOutcome(tools, d, id); }
    }

    /** `promote`. From a consistent staged disk, each operation leaves both boot entries good. */
    method Promote(id: Id) returns (ok: bool)
      requires Valid()
      modifies this
      ensures Since(old(disk), old(journal), Lifecycle.Promote(tools, old(disk), id).ops)
      ensures ok == Lifecycle.Promote(tools, old(disk), id).ok
      ensures Consistent(tools, old(disk)) && NamedBy(old(disk).roles, Staging, id) ==>
                Always(tools, old(disk), Lifecycle.Promote(tools, old(disk), id).ops) && Consistent(tools, disk)
      ensures ToolsOk(tools) && Inv(tools, old(disk)) ==>
                && (ok <==> Get(old(disk), Current) == Some(id) || Staged(old(disk), id).Some?)
                && PromoteLeft(old(disk), id, disk)
    {
      ghost var d, was := disk, journal;
      PromoteSafely(d, id);
      PromoteEnds(d, id);
      if Get(disk, Current) == Some(id) {
        ClearRole(Staging);
        return true;
      }
      var staged := Staged(disk, id);
      if staged.None? {
        Journaled(d, was, []);
        return false;
      }
      var image := staged.value;
      FlipEsp(id, image);
      ghost var e := disk;
      PromoteEspEffect(d, id, image);
      FlipRoles(id);
      Joined(d, was, PromoteEsp(d, id, image), PromoteRoles(e, id));
      ghost var m := disk;
      var removed, swept := CollectGarbage();
      Joined(d, was, Flip(d, id, image), Gc(tools, m));
      ok := true;
    }

    /** The ESP half of `rollback`. */
    method SwapEntries()
      requires Valid() && CurrentEfi in disk.esp && FallbackEfi in disk.esp
      modifies this
      ensures Since(old(disk), old(journal), SwapEsp(old(disk)))
      ensures disk == old(disk).(esp := Swapped(old(disk).esp, 3))
    {
      ghost var d, was := disk, journal;
      Do(WriteEsp(SwapTmp, disk.esp[CurrentEfi]));
      Do(RenameEsp(FallbackEfi, CurrentEfi));
      Do(RenameEsp(SwapTmp, FallbackEfi));
      assert journal == was + SwapEsp(d);
      Journaled(d, was, SwapEsp(d));
      SwapThree(d);
    }

    /** `rollback`. */
    method Rollback() returns (ok: bool)
      requires Valid()
      modifies this
      ensures Since(old(disk), old(journal), Lifecycle.Rollback(old(disk)).ops)
      ensures ok == Lifecycle.Rollback(old(disk)).ok
      ensures ok <==> CanRollBack(old(disk))
      ensures if ok then TurnedBack(old(disk), disk) else disk == old(disk)
    {
      ghost var d, was := disk, journal;
      RollbackOutcome(tools, d);
      var cur, fb := Get(disk, Current), Get(disk, Fallback);
      if fb.None? || FallbackEfi !in disk.esp || CurrentEfi !in disk.esp {
        Journaled(d, was, []);
        return false;
      }
      SwapEntries();
      SetRole(Current, fb.value);
      Joined(d, was, SwapEsp(d), Lifecycle.SetRole(d, Current, fb.value));
      if cur.Some? {
        SetRole(Fallback, cur.value);
        Joined(d, was, SwapEsp(d) + Lifecycle.SetRole(d, Current, fb.value), Lifecycle.SetRole(d, Fallback, cur.value));
      } else {
        assert Lifecycle.Rollback(d).ops == SwapEsp(d) + Lifecycle.SetRole(d, Current, fb.value);
      }
      ok := true;
    }

    /** `install_deploy`. */
    method InstallDeploy(s: Source) returns (ok: bool)
      requires Valid()
      modifies this
      ensures Since(old(disk), old(journal), Install(tools, old(disk), s).ops) && ok == Install(tools, old(disk), s).ok
      ensures ToolsOk(tools) && Inv(tools, old(disk)) && SourceOk(tools, s) ==>
                (ok <==> Installable(tools, old(disk), s)) && InstallLeft(tools, old(disk), s, disk)
    {
      ghost var d, was := disk, journal;
      if ToolsOk(tools) && Inv(tools, d) && SourceOk(tools, s) { InstallOutcome(tools, d, s); }
      if s.id in disk.dirs {
        Journaled(d, was, []);
        return false;
      }
      ok := Materialize(s);
      if ok {
        ghost var m, x := disk, journal;
        AtomicCopy(s.uki.value, CurrentEfi);
        SetRole(Current, s.id);
        Joined(m, x, CopyEsp(CurrentEfi, s.uki.value), Lifecycle.SetRole(m, Current, s.id));
        Joined(d, was, Lifecycle.Materialize(tools, d, s).ops,
               CopyEsp(CurrentEfi, s.uki.value) + Lifecycle.SetRole(m, Current, s.id));
      }
    }

    /** `do_deploy`. */
    method DoDeploy(s: Source) returns (ok: bool)
      requires Valid()
      modifies this
      ensures Since(old(disk), old(journal), Deploy(tools, old(disk), s).ops) && ok == Deploy(tools, old(disk), s).ok
      ensures Get(old(disk), Current) == Some(s.id) ==> ok && disk == old(disk) && journal == old(journal)
      ensures ToolsOk(tools) && Inv(tools, old(disk)) && SourceOk(tools, s) ==>
                (ok <==> Deployable(tools, old(disk), s)) && DeployLeft(tools, old(disk), s, disk)
    {
      ghost var d, was := disk, journal;
      if ToolsOk(tools) && Inv(tools, d) && SourceOk(tools, s) { DeployOutcome(tools, d, s); }
      if Get(disk, Current) == Some(s.id) {
        Journaled(d, was, []);
        return true;
      }
      ok := Stage(s);
      if ok {
        ghost var m := disk;
        ok := Promote(s.id);
        Joined(d, was, Lifecycle.Stage(tools, d, s).ops, Lifecycle.Promote(tools, m, s.id).ops);
      }
    }

    /**
     Any command, run to its end: exactly its plan, operation by operation; it returns when it can, and leaves what
     it is for; the disk's invariant holds at its end, and what was consistent is consistent.
     */
    method Execute(c: Command) returns (ok: bool)
      requires Valid() && Inv(tools, disk) && CommandOk(tools, c)
      modifies this
      ensures Since(old(disk), old(journal), PlanOf(tools, old(disk), c).ops) && ok == PlanOf(tools, old(disk), c).ok
      ensures ToolsOk(tools) ==> (ok <==> Returns(tools, old(disk), c)) && Leaves(tools, old(disk), c, disk)
      ensures Inv(tools, disk) && (Consistent(tools, old(disk)) ==> Consistent(tools, disk))
    {
      ghost var d := disk;
      if ToolsOk(tools) { CommandOutcome(tools, d, c); }
      CommandLegal(tools, d, c);
      LegalKeeps(tools, d, PlanOf(tools, d, c).ops);
      if Consistent(tools, d) { WholeCommand(tools, d, c); }
      match c
      case InstallCmd(s) => ok := InstallDeploy(s);
      case DeployCmd(s) => ok := DoDeploy(s);
      case RollbackCmd => ok := Rollback();
      case GcCmd =>
        var removed, swept := CollectGarbage();
        ok := true;
    }
  }
}
