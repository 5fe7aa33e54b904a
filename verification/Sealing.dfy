/**
 Seals: the run-time mount demands fs-verity on every object, but `place_object` renames an object into place
 before it seals it. Exactly when a stop leaves an unsealed object, what gc makes of it, and what becomes of
 it without a gc.
 */
module Sealing {
  import opened Options
  import opened IndexText
  import opened Pack
  import opened Coalesce
  import opened Filesystem
  import opened Objects
  import opened Transfer
  import opened Lifecycle
  import opened Safety
  import opened Rollbacks
  import opened Runs

  /** Every object but, perhaps, `g` is sealed. */
  ghost predicate SealedBut(d: Disk, g: Option<Digest>) {
    forall h | Obj(h) in d.shared && Some(h) != g :: IsSealed(d, h)
  }

  ghost predicate AllSealed(d: Disk) { SealedBut(d, None) }

  /** Only objects are ever sealed, no temporary. */
  ghost predicate TempsPlain(d: Disk) {
    forall n | n in d.shared && !n.Obj? && d.shared[n] in d.inodes :: !d.inodes[d.shared[n]].sealed
  }

  /** Every rename into the store is followed at once by the seal of that object, and seals come from nowhere else. */
  predicate Paired(ops: seq<Op>)
    decreases |ops|
  {
    ops == []
    || (if ops[0].PlaceTemp? then |ops| >= 2 && ops[1] == Seal(ops[0].digest) && Paired(ops[2..])
        else !ops[0].Seal? && Paired(ops[1..]))
  }

  lemma {:induction false} PairedConcat(a: seq<Op>, b: seq<Op>)
    requires Paired(a) && Paired(b)
    ensures Paired(a + b)
    decreases |a|
  {
    if a == [] {
      assert a + b == b;
    } else if a[0].PlaceTemp? {
      assert (a + b)[2..] == a[2..] + b;
      PairedConcat(a[2..], b);
    } else {
      assert (a + b)[1..] == a[1..] + b;
      PairedConcat(a[1..], b);
    }
  }

  /** Operations that neither place, seal nor remove a file of the store. */
  predicate Bland(op: Op) { !op.PlaceTemp? && !op.Seal? && !op.Unlink? }

  predicate NoSeals(ops: seq<Op>) { forall op | op in ops :: !op.PlaceTemp? && !op.Seal? }

  predicate NoUnlinks(ops: seq<Op>) { forall op | op in ops :: !op.Unlink? }

  predicate AllBland(ops: seq<Op>) { forall op | op in ops :: Bland(op) }

  lemma {:induction false} NoSealsPaired(ops: seq<Op>)
    requires NoSeals(ops)
    ensures Paired(ops)
    decreases |ops|
  {
    if ops != [] { NoSealsPaired(ops[1..]); }
  }

  // -------------------------------------------------- commands seal in pairs

  lemma {:induction false} LandPiecePaired(t: Tools, d: Disk, p: Piece)
    ensures Paired(LandPiece(t, d, p).ops)
  {
    var ops := LandPiece(t, d, p).ops;
    if Obj(p.digest) !in d.shared {
      var w := WriteTemp(p.Temp(), p.bytes);
      var q := PlaceObject(t, Apply(d, w), p.Temp(), p.digest);
      assert Paired(q.ops) by { if q.ops != [] { assert q.ops[2..] == []; } }
      assert ([w] + q.ops)[1..] == q.ops;
    }
  }

  lemma {:induction false} LandPiecesPaired(t: Tools, d: Disk, ps: seq<Piece>)
    ensures Paired(LandPieces(t, d, ps).ops)
    decreases |ps|
  {
    if ps != [] {
      var first := LandPiece(t, d, ps[0]);
      LandPiecePaired(t, d, ps[0]);
      LandPiecesPaired(t, Do(d, first), ps[1..]);
      PairedConcat(first.ops, LandPieces(t, Do(d, first), ps[1..]).ops);
    }
  }

  lemma {:induction false} LandRangesPaired(t: Tools, d: Disk, ranges: seq<Range>, fetch: (int, int) -> Bytes,
                                            order: seq<nat>)
    ensures Paired(LandRanges(t, d, ranges, fetch, order).ops)
    decreases |order|
  {
    if order != [] {
      if order[0] >= |ranges| {
        LandRangesPaired(t, d, ranges, fetch, order[1..]);
      } else {
        var first := LandPieces(t, d, RangePieces(Response(ranges, fetch, order[0]), ranges[order[0]].objs));
        LandPiecesPaired(t, d, RangePieces(Response(ranges, fetch, order[0]), ranges[order[0]].objs));
        LandRangesPaired(t, Do(d, first), ranges, fetch, order[1..]);
        PairedConcat(first.ops, LandRanges(t, Do(d, first), ranges, fetch, order[1..]).ops);
      }
    }
  }

  lemma {:induction false} LandSupplyPaired(t: Tools, d: Disk, refs: seq<Digest>, s: Supply)
    ensures Paired(LandSupply(t, d, refs, s).ops)
  {
    match s
    case Tree(files) => LandPiecesPaired(t, d, TreePieces(files));
    case Nothing =>
    case Blob(text, fetch, order, gap) =>
      match HostEntries(text)
      case None =>
      case Some(entries) =>
        var ranges := Coalesced(Want(refs, Digests(d), AsMap(entries)), gap);
        LandRangesPaired(t, d, ranges, fetch, order(|ranges|));
  }

  /** The part of a build after landing. */
  lemma {:induction false} BuildBland(t: Tools, d: Disk, s: Source)
    requires Inv(t, d) && s.uki.Some? && s.id in d.dirs && d.dirs[s.id] == EMPTY_DIR
    ensures AllBland(Build(t, d, s).ops)
  {
    var m := Do(d, PlaceCfs(t, s));
    PlaceCfsEffect(t, d, s);
    LinkRefsLegal(t, m, s.id, t.refs(s.cfs));
    assert AllBland(Finish(t, m, s));
  }

  lemma {:induction false} MaterializeShape(t: Tools, d: Disk, s: Source)
    requires Inv(t, d) && SourceOk(t, s) && !HasCfs(d, s.id)
    ensures var ops := Materialize(t, d, s).ops;
            Paired(ops) && NoUnlinks(ops)
  {
    if s.uki.Some? {
      var l := Landed(t, d, s);
      var n := Do(Apply(d, MkDir(s.id)), l);
      LandedQuiet(t, d, s, {});
      LandedNoUnlinks(t, d, s);
      LandSupplyPaired(t, Apply(d, MkDir(s.id)), t.refs(s.cfs), s.supply);
      BuildBland(t, n, s);
      var b := Build(t, n, s);
      NoSealsPaired(b.ops);
      PairedConcat(l.ops, b.ops);
      NoSealsPaired([MkDir(s.id)]);
      PairedConcat([MkDir(s.id)], Then(l, b).ops);
    }
  }

  lemma {:induction false} LandedNoUnlinks(t: Tools, d: Disk, s: Source)
    requires Inv(t, d) && SourceOk(t, s) && !HasCfs(d, s.id)
    ensures NoUnlinks(Landed(t, d, s).ops)
  {
    LandedEffect(t, d, s);
    forall op | op in Landed(t, d, s).ops ensures !op.Unlink? { assert StoreOp(op); }
  }

  lemma {:induction false} MarkedShape(m: Plan, mark: seq<Op>)
    requires Paired(m.ops) && NoUnlinks(m.ops) && AllBland(mark)
    ensures var ops := Then(m, Plan(mark, true)).ops;
            Paired(ops) && NoUnlinks(ops)
  {
    NoSealsPaired(mark);
    PairedConcat(m.ops, mark);
  }

  lemma {:induction false} StageShape(t: Tools, d: Disk, s: Source)
    requires Inv(t, d) && SourceOk(t, s)
    ensures var ops := Stage(t, d, s).ops;
            Paired(ops) && NoUnlinks(ops)
  {
    var m := if HasCfs(d, s.id) then Plan([], true) else Materialize(t, d, s);
    var mark := SetRole(Do(d, m), Staging, s.id);
    if !HasCfs(d, s.id) { MaterializeShape(t, d, s); }
    MarkedShape(m, mark);
  }

  lemma {:induction false} FreeNoSeals(ops: seq<Op>)
    requires AllFree(ops)
    ensures NoSeals(ops) && Paired(ops)
  {
    assert forall op | op in ops :: FreeOp(op);
    NoSealsPaired(ops);
  }

  lemma {:induction false} GcPaired(t: Tools, d: Disk)
    requires Inv(t, d)
    ensures NoSeals(Gc(t, d)) && Paired(Gc(t, d))
  {
    GcRemoves(t, d);
    assert forall op | op in Gc(t, d) :: Removal(op);
    NoSealsPaired(Gc(t, d));
  }

  lemma {:induction false} PromotePaired(t: Tools, d: Disk, id: Id)
    requires Inv(t, d)
    ensures Paired(Promote(t, d, id).ops)
  {
    FreeNoSeals(ClearRole(d, Staging));
    if Staged(d, id).Some? {
      var image := Staged(d, id).value;
      FlipFree(d, id, image);
      FreeNoSeals(Flip(d, id, image));
      FlipLegal(t, d, id, image);
      GcPaired(t, Run(d, Flip(d, id, image)));
      PairedConcat(Flip(d, id, image), Gc(t, Run(d, Flip(d, id, image))));
    }
  }

  lemma {:induction false} DeployPaired(t: Tools, d: Disk, s: Source)
    requires Inv(t, d) && SourceOk(t, s)
    ensures Paired(Deploy(t, d, s).ops)
  {
    var p := Stage(t, d, s);
    StageShape(t, d, s);
    StageLegal(t, d, s);
    LegalKeeps(t, d, p.ops);
    PromotePaired(t, Do(d, p), s.id);
    PairedConcat(p.ops, Promote(t, Do(d, p), s.id).ops);
  }

  lemma {:induction false} InstallPaired(t: Tools, d: Disk, s: Source)
    requires Inv(t, d) && SourceOk(t, s)
    ensures Paired(Install(t, d, s).ops)
  {
    if s.id !in d.dirs {
      var m := Materialize(t, d, s);
      MaterializeShape(t, d, s);
      var tail := if s.uki.Some? then CopyEsp(CurrentEfi, s.uki.value) + SetRole(Do(d, m), Current, s.id) else [];
      FreeNoSeals(tail);
      PairedConcat(m.ops, tail);
    }
  }

  lemma {:induction false} CommandPaired(t: Tools, d: Disk, c: Command)
    requires Inv(t, d) && CommandOk(t, c)
    ensures Paired(PlanOf(t, d, c).ops)
  {
    match c
    case InstallCmd(s) => InstallPaired(t, d, s);
    case DeployCmd(s) => DeployPaired(t, d, s);
    case RollbackCmd => FreeNoSeals(Rollback(d).ops);
    case GcCmd => GcPaired(t, d);
  }

  // ------------------------------------------------- what a stop leaves

  /** The names are old names and no seal has changed. */
  ghost predicate SealsSame(d: Disk, r: Disk) {
    && (forall n | n in r.shared :: n in d.shared && r.shared[n] == d.shared[n])
    && (forall i | i in d.inodes :: i in r.inodes && r.inodes[i].sealed == d.inodes[i].sealed)
  }

  lemma {:induction false} SealsSameKeeps(t: Tools, d: Disk, r: Disk, g: Option<Digest>)
    requires InodesOk(d) && SealsSame(d, r) && SealedBut(d, g) && TempsPlain(d)
    ensures SealedBut(r, g) && TempsPlain(r)
  {
    forall h | Obj(h) in r.shared && Some(h) != g ensures IsSealed(r, h) { assert IsSealed(d, h); }
  }

  lemma {:induction false} RewriteSeals(d: Disk, n: Name, bytes: Bytes)
    requires InodesOk(d) && n in d.shared
    ensures SealsSame(d, Apply(d, WriteTemp(n, bytes)))
  {
  }

  lemma {:induction false} FreshTempSeals(d: Disk, n: Name, bytes: Bytes, g: Option<Digest>)
    requires InodesOk(d) && !n.Obj? && n !in d.shared && SealedBut(d, g) && TempsPlain(d)
    ensures SealedBut(Apply(d, WriteTemp(n, bytes)), g) && TempsPlain(Apply(d, WriteTemp(n, bytes)))
  {
    var r := Apply(d, WriteTemp(n, bytes));
    assert d.next !in d.inodes;
    forall h | Obj(h) in r.shared && Some(h) != g ensures IsSealed(r, h) { assert IsSealed(d, h); }
  }

  lemma {:induction false} WriteTempSeals(t: Tools, d: Disk, n: Name, bytes: Bytes, g: Option<Digest>)
    requires InodesOk(d) && !n.Obj? && SealedBut(d, g) && TempsPlain(d)
    ensures SealedBut(Apply(d, WriteTemp(n, bytes)), g) && TempsPlain(Apply(d, WriteTemp(n, bytes)))
  {
    if n in d.shared {
      RewriteSeals(d, n, bytes);
      SealsSameKeeps(t, d, Apply(d, WriteTemp(n, bytes)), g);
    } else {
      FreshTempSeals(d, n, bytes, g);
    }
  }

  lemma {:induction false} OtherOpSeals(t: Tools, d: Disk, op: Op, g: Option<Digest>)
    requires Inv(t, d) && Permits(t, d, op) && !op.PlaceTemp? && !op.Seal?
    requires SealedBut(d, g) && TempsPlain(d)
    ensures SealedBut(Apply(d, op), g) && TempsPlain(Apply(d, op))
  {
    if op.WriteTemp? {
      WriteTempSeals(t, d, op.name, op.bytes, g);
    } else {
      OtherOpSame(d, op);
      SealsSameKeeps(t, d, Apply(d, op), g);
    }
  }

  lemma {:induction false} OtherOpSame(d: Disk, op: Op)
    requires !op.WriteTemp? && !op.PlaceTemp? && !op.Seal?
    ensures SealsSame(d, Apply(d, op))
  {
  }

  /** Between the rename and the seal, the object placed is the one that is not sealed. */
  lemma {:induction false} PlaceUnseals(t: Tools, d: Disk, n: Name, h: Digest, g: Option<Digest>)
    requires Inv(t, d) && Permits(t, d, PlaceTemp(n, h)) && SealedBut(d, g) && TempsPlain(d)
    ensures var m := Apply(d, PlaceTemp(n, h));
            && TempsPlain(m) && Obj(h) in m.shared && !IsSealed(m, h)
            && forall x | Obj(x) in m.shared && x != h && Some(x) != g :: IsSealed(m, x)
  {
    var m := Apply(d, PlaceTemp(n, h));
    assert m.shared == (d.shared - {n})[Obj(h) := d.shared[n]] && m.inodes == d.inodes;
  }

  lemma {:induction false} SealReseals(t: Tools, m: Disk, h: Digest, g: Option<Digest>)
    requires Inv(t, m) && TempsPlain(m) && Obj(h) in m.shared
    requires forall x | Obj(x) in m.shared && x != h && Some(x) != g :: IsSealed(m, x)
    ensures SealedBut(Apply(m, Seal(h)), g) && TempsPlain(Apply(m, Seal(h)))
  {
    var r := Apply(m, Seal(h));
    assert r.shared == m.shared && forall n | n in m.shared && n != Obj(h) :: m.shared[n] != m.shared[Obj(h)];
    assert IsSealed(r, h);
  }

  /** After `k` operations, is the last one a rename that its seal has not followed? */
  predicate MidSeal(ops: seq<Op>, k: nat) { 0 < k <= |ops| && ops[k - 1].PlaceTemp? }

  /** Everything is sealed but, in the middle of a pair, the object just placed. */
  ghost predicate SealState(m: Disk, ops: seq<Op>, k: nat, g: Option<Digest>) {
    && TempsPlain(m)
    && (!MidSeal(ops, k) ==> SealedBut(m, g))
    && (MidSeal(ops, k) ==>
          var h := ops[k - 1].digest;
          && Obj(h) in m.shared && !IsSealed(m, h)
          && forall x | Obj(x) in m.shared && x != h && Some(x) != g :: IsSealed(m, x))
  }

  lemma {:induction false} ShiftSealState(m: Disk, ops: seq<Op>, j: nat, k: nat, g: Option<Digest>)
    requires j < k <= |ops| && SealState(m, ops[j..], k - j, g)
    ensures SealState(m, ops, k, g)
  {
    assert ops[j..][k - j - 1] == ops[k - 1];
  }

  /** `k` operations are the first `j`, then `k - j` of the rest. */
  lemma {:induction false} RunSplit(d: Disk, ops: seq<Op>, j: nat, k: nat)
    requires j <= k <= |ops|
    ensures Run(d, ops[..k]) == Run(Run(d, ops[..j]), ops[j..][..k - j])
  {
    assert ops[..k] == ops[..j] + ops[j..][..k - j];
    RunConcat(d, ops[..j], ops[j..][..k - j]);
  }

  lemma {:induction false} RunFirst(d: Disk, ops: seq<Op>)
    ensures ops != [] ==> Run(d, ops[..1]) == Apply(d, ops[0])
    ensures |ops| > 1 ==> Run(d, ops[..2]) == Apply(Apply(d, ops[0]), ops[1])
  {
    if ops != [] {
      assert ops[..1] == [ops[0]];
      RunOne(d, ops[0]);
    }
    if |ops| > 1 {
      assert ops[..2] == [ops[0], ops[1]];
      RunTwo(d, ops[0], ops[1]);
    }
  }

  lemma {:induction false} SealedPrefix(t: Tools, d: Disk, ops: seq<Op>, k: nat, g: Option<Digest>)
    requires Inv(t, d) && Legal(t, d, ops) && Paired(ops) && SealedBut(d, g) && TempsPlain(d) && k <= |ops|
    ensures SealState(Run(d, ops[..k]), ops, k, g)
    decreases |ops|
  {
    RunFirst(d, ops);
    if k == 0 {
      assert ops[..k] == [];
    } else if ops[0].PlaceTemp? {
      PlacedPrefix(t, d, ops, k, g);
      if k > 2 {
        FirstPair(t, d, ops, g);
        SealedPrefix(t, Apply(Apply(d, ops[0]), ops[1]), ops[2..], k - 2, g);
        RunSplit(d, ops, 2, k);
        ShiftSealState(Run(d, ops[..k]), ops, 2, k, g);
      }
    } else {
      OtherOpSeals(t, d, ops[0], g);
      if k > 1 {
        ApplyKeeps(t, d, ops[0]);
        SealedPrefix(t, Apply(d, ops[0]), ops[1..], k - 1, g);
        RunSplit(d, ops, 1, k);
        ShiftSealState(Run(d, ops[..k]), ops, 1, k, g);
      }
    }
  }

  lemma {:induction false} FirstPair(t: Tools, d: Disk, ops: seq<Op>, g: Option<Digest>)
    requires Inv(t, d) && Legal(t, d, ops) && Paired(ops) && SealedBut(d, g) && TempsPlain(d)
    requires ops != [] && ops[0].PlaceTemp?
    ensures var r := Apply(Apply(d, ops[0]), ops[1]);
            Inv(t, r) && SealedBut(r, g) && TempsPlain(r) && Legal(t, r, ops[2..]) && Paired(ops[2..])
  {
    var m := Apply(d, ops[0]);
    PlaceUnseals(t, d, ops[0].name, ops[0].digest, g);
    ApplyKeeps(t, d, ops[0]);
    SealReseals(t, m, ops[0].digest, g);
    ApplyKeeps(t, m, ops[1]);
    assert ops[1..][0] == ops[1] && ops[1..][1..] == ops[2..];
  }

  lemma {:induction false} PlacedPrefix(t: Tools, d: Disk, ops: seq<Op>, k: nat, g: Option<Digest>)
    requires Inv(t, d) && Legal(t, d, ops) && Paired(ops) && SealedBut(d, g) && TempsPlain(d) && k <= |ops|
    requires ops != [] && ops[0].PlaceTemp?
    ensures k == 1 || k == 2 ==> SealState(Run(d, ops[..k]), ops, k, g)
  {
    if k == 1 {
      assert ops[..k] == [ops[0]];
      RunOne(d, ops[0]);
      PlaceUnseals(t, d, ops[0].name, ops[0].digest, g);
    } else if k == 2 {
      assert ops[..k] == [ops[0], ops[1]];
      RunTwo(d, ops[0], ops[1]);
      FirstPair(t, d, ops, g);
    }
  }

  /**
   Any command, stopped anywhere, from a store where everything is sealed: all is sealed again unless the stop
   fell between a rename and its seal, and then one object is not.
   */
  lemma {:induction false} SealedExactly(t: Tools, d: Disk, c: Command, k: nat)
    requires Inv(t, d) && CommandOk(t, c) && AllSealed(d) && TempsPlain(d) && k <= |PlanOf(t, d, c).ops|
    ensures var ops := PlanOf(t, d, c).ops;
            var m := Run(d, ops[..k]);
            && TempsPlain(m) && (AllSealed(m) <==> !MidSeal(ops, k))
            && (MidSeal(ops, k) ==> forall x | Obj(x) in m.shared :: IsSealed(m, x) <==> x != ops[k - 1].digest)
  {
    CommandLegal(t, d, c);
    CommandPaired(t, d, c);
    SealedPrefix(t, d, PlanOf(t, d, c).ops, k, None);
  }

  // ---------------------------------------------------------- with a gc

  lemma {:induction false} JustPlaced(t: Tools, d: Disk, ops: seq<Op>, k: nat)
    requires Inv(t, d) && Legal(t, d, ops) && MidSeal(ops, k)
    ensures var m := Run(d, ops[..k]);
            Inv(t, m) && Holders(m.dirs, ops[k - 1].digest) == {}
  {
    var g := ops[k - 1].digest;
    var b := Run(d, ops[..k - 1]);
    LegalPrefix(t, d, ops, k);
    LegalKeeps(t, d, ops[..k]);
    assert ops[..k] == ops[..k - 1] + [ops[k - 1]];
    LegalConcat(t, d, ops[..k - 1], [ops[k - 1]]);
    LegalKeeps(t, d, ops[..k - 1]);
    RunConcat(d, ops[..k - 1], [ops[k - 1]]);
    RunOne(b, ops[k - 1]);
    assert Obj(g) !in b.shared;
    assert forall id | id in b.dirs :: g !in b.dirs[id].holder;
  }

  lemma {:induction false} UnheldUnreachable(d: Disk, g: Digest)
    requires Holders(d.dirs, g) == {}
    ensures !Reachable(d, g)
  {
    forall id | id in d.dirs ensures g !in d.dirs[id].holder {
      assert g in d.dirs[id].holder ==> id in Holders(d.dirs, g);
    }
  }

  /** One gc after the crash removes the unsealed object: nothing can hold it yet. */
  lemma {:induction false} GcHealsSeals(t: Tools, d: Disk, c: Command, k: nat)
    requires ToolsOk(t) && Inv(t, d) && CommandOk(t, c) && AllSealed(d) && TempsPlain(d)
    requires k <= |PlanOf(t, d, c).ops|
    ensures var m := Run(d, PlanOf(t, d, c).ops[..k]);
            AllSealed(Run(m, Gc(t, m)))
  {
    var ops := PlanOf(t, d, c).ops;
    var m := Run(d, ops[..k]);
    SealedExactly(t, d, c, k);
    CommandLegal(t, d, c);
    LegalPrefix(t, d, ops, k);
    LegalKeeps(t, d, ops[..k]);
    if MidSeal(ops, k) {
      JustPlaced(t, d, ops, k);
      UnheldUnreachable(m, ops[k - 1].digest);
    }
    GcIsReachability(t, m);
    forall g | Obj(g) in Run(m, Gc(t, m)).shared ensures IsSealed(Run(m, Gc(t, m)), g) {
      assert Reachable(m, g) && IsSealed(m, g);
    }
  }

  // ------------------------------------------------------- over whole runs

  /** No command of the run stopped between a rename and its seal. */
  predicate SealsFollow(t: Tools, d: Disk, events: seq<Event>)
    decreases |events|
  {
    events == []
    || (var ops := PlanOf(t, d, events[0].command).ops;
        !MidSeal(ops, events[0].stop) && SealsFollow(t, Run(d, Until(ops, events[0].stop)), events[1..]))
  }

  lemma {:induction false} SealedHistory(t: Tools, d: Disk, events: seq<Event>)
    requires Inv(t, d) && AllSealed(d) && TempsPlain(d) && SealsFollow(t, d, events)
    requires forall e | e in events :: CommandOk(t, e.command)
    ensures AllSealed(History(t, d, events)) && TempsPlain(History(t, d, events))
    decreases |events|
  {
    if events != [] {
      var e := events[0];
      var ops := PlanOf(t, d, e.command).ops;
      var k := if e.stop <= |ops| then e.stop else |ops|;
      assert Until(ops, e.stop) == ops[..k];
      CommandPaired(t, d, e.command);
      CommandLegal(t, d, e.command);
      if e.stop > |ops| { PairedEndsSealed(ops); }
      SealedExactly(t, d, e.command, k);
      LegalPrefix(t, d, ops, k);
      LegalKeeps(t, d, ops[..k]);
      SealedHistory(t, Run(d, ops[..k]), events[1..]);
    }
  }

  lemma {:induction false} PairedEndsSealed(ops: seq<Op>)
    requires Paired(ops)
    ensures !MidSeal(ops, |ops|)
    decreases |ops|
  {
    if ops != [] {
      if ops[0].PlaceTemp? { PairedEndsSealed(ops[2..]); } else { PairedEndsSealed(ops[1..]); }
    }
  }

  /** What the initramfs demands, seals included. */
  ghost predicate Mounts(t: Tools, d: Disk, image: Image) {
    Boots(t, d, image) && forall g | g in Needed(t, d.dirs[image.id].cfs.value) :: IsSealed(d, g)
  }

  /** Each boot entry can be mounted. */
  ghost predicate EspMounts(t: Tools, d: Disk) {
    && (CurrentEfi in d.esp ==> Mounts(t, d, d.esp[CurrentEfi]))
    && (FallbackEfi in d.esp ==> Mounts(t, d, d.esp[FallbackEfi]))
  }

  /** Every object some holder contains is sealed. */
  ghost predicate HeldSealed(d: Disk) {
    forall id, g | id in d.dirs && g in d.dirs[id].holder :: IsSealed(d, g)
  }

  lemma {:induction false} CompleteMounts(t: Tools, d: Disk, image: Image)
    requires Inv(t, d) && HeldSealed(d) && image.id in d.dirs && Complete(t, d.dirs[image.id], image.digest)
    ensures Mounts(t, d, image)
  {
    var dir := d.dirs[image.id];
    forall g | g in Needed(t, dir.cfs.value)
      ensures Obj(g) in d.shared && t.measure(ObjBytes(d, g)) == g && IsSealed(d, g)
    {
      assert g in dir.holder;
    }
  }

  /** A complete deployment on the ESP needs only held objects, and those are sealed. */
  lemma {:induction false} SafeMounts(t: Tools, d: Disk)
    requires Inv(t, d) && EspSafe(t, d) && HeldSealed(d)
    ensures EspMounts(t, d)
  {
    if CurrentEfi in d.esp { CompleteMounts(t, d, d.esp[CurrentEfi]); }
    if FallbackEfi in d.esp { CompleteMounts(t, d, d.esp[FallbackEfi]); }
  }

  lemma {:induction false} UnheldMayLackSeal(d: Disk, g: Option<Digest>)
    requires HoldersOk(d) && SealedBut(d, g) && (g.Some? ==> Holders(d.dirs, g.value) == {})
    ensures HeldSealed(d)
  {
    forall id, h | id in d.dirs && h in d.dirs[id].holder ensures IsSealed(d, h) {
      assert id in Holders(d.dirs, h);
    }
  }

  /** Stopped anywhere, a command leaves every held object sealed: the one that may lack its seal is held by nobody. */
  lemma {:induction false} StopsHeldSealed(t: Tools, d: Disk, c: Command, k: nat)
    requires Inv(t, d) && CommandOk(t, c) && AllSealed(d) && TempsPlain(d) && k <= |PlanOf(t, d, c).ops|
    ensures var m := Run(d, PlanOf(t, d, c).ops[..k]);
            Inv(t, m) && HeldSealed(m)
  {
    var ops := PlanOf(t, d, c).ops;
    var m := Run(d, ops[..k]);
    SealedExactly(t, d, c, k);
    CommandLegal(t, d, c);
    LegalPrefix(t, d, ops, k);
    LegalKeeps(t, d, ops[..k]);
    if MidSeal(ops, k) {
      JustPlaced(t, d, ops, k);
      UnheldMayLackSeal(m, Some(ops[k - 1].digest));
    } else {
      UnheldMayLackSeal(m, None);
    }
  }

  /** What removals leave has the holders and seals it had. */
  ghost predicate Thinned(d: Disk, r: Disk) {
    SealsSame(d, r) && forall id | id in r.dirs :: id in d.dirs && r.dirs[id] == d.dirs[id]
  }

  lemma {:induction false} RemovalThins(d: Disk, op: Op)
    requires Removal(op)
    ensures Thinned(d, Apply(d, op))
  {
  }

  lemma {:induction false} RemovalsThin(d: Disk, ops: seq<Op>)
    requires AllRemovals(ops)
    ensures Thinned(d, Run(d, ops))
    decreases |ops|
  {
    if ops != [] {
      assert Removal(ops[0]);
      RemovalThins(d, ops[0]);
      RemovalsThin(Apply(d, ops[0]), ops[1..]);
    }
  }

  lemma {:induction false} ThinnedHeldSealed(d: Disk, r: Disk)
    requires HoldersOk(r) && HeldSealed(d) && Thinned(d, r)
    ensures HeldSealed(r)
  {
    forall id, g | id in r.dirs && g in r.dirs[id].holder ensures IsSealed(r, g) {
      assert IsSealed(d, g);
    }
  }

  lemma {:induction false} GcMounts(t: Tools, m: Disk, j: nat)
    requires Inv(t, m) && EspSafe(t, m) && HeldSealed(m) && j <= |Gc(t, m)|
    ensures EspMounts(t, Run(m, Gc(t, m)[..j]))
  {
    var gc := Gc(t, m);
    CrashedGcBoots(t, m, j);
    GcRemoves(t, m);
    RemovalsThin(m, gc[..j]);
    GcLegal(t, m);
    LegalPrefix(t, m, gc, j);
    LegalKeeps(t, m, gc[..j]);
    ThinnedHeldSealed(m, Run(m, gc[..j]));
    SafeMounts(t, Run(m, gc[..j]));
  }

  /**
   A deploy stopped after any number of operations: the entries that were there are there, and everything the
   initramfs demands of them holds, seals included. A gc after the crash, itself stopped anywhere, does not
   change that.
   */
  lemma {:induction false} CrashedDeployMounts(t: Tools, d: Disk, s: Source, k: nat, j: nat)
    requires Consistent(t, d) && AllSealed(d) && TempsPlain(d) && SourceOk(t, s) && k <= |Deploy(t, d, s).ops|
    requires j <= |Gc(t, Run(d, Deploy(t, d, s).ops[..k]))|
    ensures var m := Run(d, Deploy(t, d, s).ops[..k]);
            var r := Run(m, Gc(t, m)[..j]);
            && EspMounts(t, m) && EspMounts(t, r) && r.esp == m.esp
            && (CurrentEfi in d.esp ==> CurrentEfi in m.esp) && (FallbackEfi in d.esp ==> FallbackEfi in m.esp)
  {
    var m := Run(d, Deploy(t, d, s).ops[..k]);
    CrashedDeployBoots(t, d, s, k, j);
    StopsHeldSealed(t, d, DeployCmd(s), k);
    SafeMounts(t, m);
    GcMounts(t, m, j);
  }

  /** A rollback stopped anywhere: the current entry mounts. */
  lemma {:induction false} CrashedRollbackMounts(t: Tools, d: Disk, k: nat)
    requires Consistent(t, d) && AllSealed(d) && TempsPlain(d) && k <= |Rollback(d).ops|
    ensures var m := Run(d, Rollback(d).ops[..k]);
            && (CurrentEfi in d.esp ==> CurrentEfi in m.esp)
            && (CurrentEfi in m.esp ==> Mounts(t, m, m.esp[CurrentEfi]))
  {
    var m := Run(d, Rollback(d).ops[..k]);
    RollbackKeepsCurrent(t, d, k);
    StopsHeldSealed(t, d, RollbackCmd, k);
    if CurrentEfi in m.esp { CompleteMounts(t, m, m.esp[CurrentEfi]); }
  }

  /** A run whose commands finish, die, or stop before the ESP and not between a rename and its seal: all mounts. */
  lemma {:induction false} CleanRunsMount(t: Tools, events: seq<Event>)
    requires CleanHistory(t, BLANK, events) && SealsFollow(t, BLANK, events)
    requires forall e | e in events :: CommandOk(t, e.command)
    ensures EspMounts(t, History(t, BLANK, events))
  {
    CleanRunsBoot(t, events);
    SealedHistory(t, BLANK, events);
  }

  lemma {:induction false} CleanRunSealed(t: Tools, d: Disk, events: seq<Event>)
    requires Consistent(t, d) && AllSealed(d) && TempsPlain(d)
    requires CleanHistory(t, d, events) && SealsFollow(t, d, events)
    requires forall e | e in events :: CommandOk(t, e.command)
    ensures var r := History(t, d, events);
            Consistent(t, r) && AllSealed(r) && TempsPlain(r)
  {
    CleanHistoryKeeps(t, d, events);
    SealedHistory(t, d, events);
  }

  /** After any such run, a deploy stopped anywhere and then a gc stopped anywhere: both entries mount. */
  lemma {:induction false} CrashAfterCleanRunMounts(t: Tools, events: seq<Event>, d: Disk, s: Source, k: nat, j: nat)
    requires CleanHistory(t, BLANK, events) && SealsFollow(t, BLANK, events) && SourceOk(t, s)
    requires forall e | e in events :: CommandOk(t, e.command)
    requires d == History(t, BLANK, events) && k <= |Deploy(t, d, s).ops|
    requires j <= |Gc(t, Run(d, Deploy(t, d, s).ops[..k]))|
    ensures var m := Run(d, Deploy(t, d, s).ops[..k]);
            EspMounts(t, m) && EspMounts(t, Run(m, Gc(t, m)[..j]))
  {
    BlankIsConsistent(t);
    CleanRunSealed(t, BLANK, events);
    CrashedDeployMounts(t, d, s, k, j);
  }

  lemma {:induction false} BlankIsConsistent(t: Tools)
    ensures Consistent(t, BLANK) && AllSealed(BLANK) && TempsPlain(BLANK)
  {
  }

  // ------------------------------------------------------ without a gc

  lemma {:induction false} KeepsSealedBut(t: Tools, d: Disk, ops: seq<Op>, g: Option<Digest>)
    requires Inv(t, d) && Legal(t, d, ops) && Paired(ops) && SealedBut(d, g) && TempsPlain(d)
    ensures SealedBut(Run(d, ops), g)
  {
    SealedPrefix(t, d, ops, |ops|, g);
    PairedEndsSealed(ops);
    assert ops[..|ops|] == ops;
  }

  lemma {:induction false} OpLeavesUnsealed(t: Tools, d: Disk, op: Op, g: Digest)
    requires Inv(t, d) && Permits(t, d, op) && !op.Unlink? && op != Seal(g)
    requires Obj(g) in d.shared && !IsSealed(d, g)
    ensures Obj(g) in Apply(d, op).shared && !IsSealed(Apply(d, op), g)
  {
    if op.WriteTemp? || op.PlaceTemp? || op.Seal? {
      StoreOpLeavesUnsealed(t, d, op, g);
    } else {
      OtherOpSame(d, op);
    }
  }

  lemma {:induction false} StoreOpLeavesUnsealed(t: Tools, d: Disk, op: Op, g: Digest)
    requires Inv(t, d) && Permits(t, d, op) && (op.WriteTemp? || op.PlaceTemp? || op.Seal?) && op != Seal(g)
    requires Obj(g) in d.shared && !IsSealed(d, g)
    ensures Obj(g) in Apply(d, op).shared && !IsSealed(Apply(d, op), g)
  {
    match op
    case WriteTemp(n, _) => assert d.next !in d.inodes; assert n != Obj(g);
    case PlaceTemp(n, h) => assert h != g;
    case Seal(h) => assert Obj(h) in d.shared ==> d.shared[Obj(h)] != d.shared[Obj(g)];
  }

  /** Landing skips an object that is there, so nothing ever comes back to seal it. */
  lemma {:induction false} StaysUnsealed(t: Tools, d: Disk, ops: seq<Op>, g: Digest)
    requires Inv(t, d) && Legal(t, d, ops) && Paired(ops) && NoUnlinks(ops)
    requires Obj(g) in d.shared && !IsSealed(d, g)
    ensures Obj(g) in Run(d, ops).shared && !IsSealed(Run(d, ops), g)
    decreases |ops|
  {
    if ops != [] {
      var m := Apply(d, ops[0]);
      OpLeavesUnsealed(t, d, ops[0], g);
      ApplyKeeps(t, d, ops[0]);
      if ops[0].PlaceTemp? {
        assert ops[1..][0] == ops[1] && ops[1..][1..] == ops[2..];
        OpLeavesUnsealed(t, m, ops[1], g);
        ApplyKeeps(t, m, ops[1]);
        StaysUnsealed(t, Apply(m, ops[1]), ops[2..], g);
        RunSplitTwo(d, ops);
      } else {
        StaysUnsealed(t, m, ops[1..], g);
      }
    }
  }

  lemma {:induction false} RunSplitTwo(d: Disk, ops: seq<Op>)
    requires |ops| > 1
    ensures Run(d, ops) == Run(Apply(Apply(d, ops[0]), ops[1]), ops[2..])
  {
    assert ops[1..][1..] == ops[2..];
  }
}
