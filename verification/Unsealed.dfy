/**
 A deploy that stopped between a rename and its seal, and was simply run again: landing skips the object, and
 the seal is never made up for. Exactly which objects this condemns.
 */
module Unsealed {
  import opened Options
  import opened Filesystem
  import opened Objects
  import opened Lifecycle
  import opened Safety
  import opened Runs
  import opened Sealing

  // ------------------------------------------- a rename happens while landing

  lemma {:induction false} EarlyPlace(a: seq<Op>, b: seq<Op>, k: nat)
    requires NoSeals(b)
    ensures MidSeal(a + b, k) ==> k <= |a| && (a + b)[..k] == a[..k]
  {
    if |a| < k <= |a + b| {
      assert (a + b)[k - 1] == b[k - 1 - |a|];
      assert b[k - 1 - |a|] in b;
    }
  }

  lemma {:induction false} ThenTail(p: Plan, q: Plan, a: seq<Op>, tail: seq<Op>) returns (rest: seq<Op>)
    requires p.ops == a + tail && NoSeals(tail) && NoSeals(q.ops)
    ensures Then(p, q).ops == a + rest && NoSeals(rest)
  {
    rest := if p.ok then tail + q.ops else tail;
    assert (a + tail) + q.ops == a + (tail + q.ops);
  }

  function Landing(t: Tools, d: Disk, s: Source): seq<Op> { [MkDir(s.id)] + Landed(t, d, s).ops }

  lemma {:induction false} MaterializeTail(t: Tools, d: Disk, s: Source) returns (rest: seq<Op>)
    requires Inv(t, d) && SourceOk(t, s) && !HasCfs(d, s.id) && s.uki.Some?
    ensures Materialize(t, d, s).ops == Landing(t, d, s) + rest && NoSeals(rest)
  {
    var l := Landed(t, d, s);
    var n := Do(Apply(d, MkDir(s.id)), l);
    LandedQuiet(t, d, s, {});
    BuildBland(t, n, s);
    rest := if l.ok then Build(t, n, s).ops else [];
  }

  lemma {:induction false} StageTail(t: Tools, d: Disk, s: Source) returns (rest: seq<Op>)
    requires Inv(t, d) && SourceOk(t, s) && !HasCfs(d, s.id) && s.uki.Some?
    ensures Stage(t, d, s).ops == Landing(t, d, s) + rest && NoSeals(rest)
  {
    var m := Materialize(t, d, s);
    var tail := MaterializeTail(t, d, s);
    rest := ThenTail(m, Plan(SetRole(Do(d, m), Staging, s.id), true), Landing(t, d, s), tail);
  }

  lemma {:induction false} PromoteNoSeals(t: Tools, d: Disk, id: Id)
    requires Inv(t, d)
    ensures NoSeals(Promote(t, d, id).ops)
  {
    FreeNoSeals(ClearRole(d, Staging));
    if Staged(d, id).Some? {
      var image := Staged(d, id).value;
      FlipFree(d, id, image);
      FreeNoSeals(Flip(d, id, image));
      FlipLegal(t, d, id, image);
      GcPaired(t, Run(d, Flip(d, id, image)));
    }
  }

  lemma {:induction false} DeployTail(t: Tools, d: Disk, s: Source) returns (rest: seq<Op>)
    requires Inv(t, d) && SourceOk(t, s) && !HasCfs(d, s.id) && s.uki.Some? && Get(d, Current) != Some(s.id)
    ensures Deploy(t, d, s).ops == Landing(t, d, s) + rest && NoSeals(rest)
  {
    var p := Stage(t, d, s);
    var tail := StageTail(t, d, s);
    StageLegal(t, d, s);
    LegalKeeps(t, d, p.ops);
    PromoteNoSeals(t, Do(d, p), s.id);
    rest := ThenTail(p, Promote(t, Do(d, p), s.id), Landing(t, d, s), tail);
  }

  ghost predicate NoNewCfs(d: Disk, m: Disk) { forall i | HasCfs(m, i) :: HasCfs(d, i) }

  lemma {:induction false} LandedPrefix(t: Tools, d: Disk, s: Source, j: nat)
    requires Inv(t, d) && SourceOk(t, s) && !HasCfs(d, s.id) && j <= |Landed(t, d, s).ops|
    ensures var m := Run(Apply(d, MkDir(s.id)), Landed(t, d, s).ops[..j]);
            !HasCfs(m, s.id) && m.roles == d.roles && NoNewCfs(d, m)
  {
    var mk := Apply(d, MkDir(s.id));
    var ops := Landed(t, d, s).ops;
    LandedEffect(t, d, s);
    LegalPrefix(t, mk, ops, j);
    StoreOpsExtend(t, mk, ops[..j]);
  }

  lemma {:induction false} LandingPrefix(t: Tools, d: Disk, s: Source, k: nat)
    requires Inv(t, d) && SourceOk(t, s) && !HasCfs(d, s.id) && 0 < k <= |Landing(t, d, s)|
    ensures var m := Run(d, Landing(t, d, s)[..k]);
            !HasCfs(m, s.id) && m.roles == d.roles && NoNewCfs(d, m)
  {
    LandedPrefix(t, d, s, k - 1);
    RunSplit(d, Landing(t, d, s), 1, k);
    RunFirst(d, Landing(t, d, s));
    assert Landing(t, d, s)[1..] == Landed(t, d, s).ops;
  }

  /** A stop between rename and seal finds the deployment without its `root.cfs`. */
  lemma {:induction false} MidSealIsEarly(t: Tools, d: Disk, s: Source, k: nat)
    requires Inv(t, d) && SourceOk(t, s) && !HasCfs(d, s.id) && Get(d, Current) != Some(s.id)
    requires MidSeal(Deploy(t, d, s).ops, k)
    ensures var m := Run(d, Deploy(t, d, s).ops[..k]);
            s.uki.Some? && !HasCfs(m, s.id) && m.roles == d.roles && NoNewCfs(d, m)
  {
    if s.uki.Some? {
      var rest := DeployTail(t, d, s);
      EarlyPlace(Landing(t, d, s), rest, k);
      LandingPrefix(t, d, s, k);
    }
  }

  // ---------------------------------------------------- what a build holds

  /** The deployment holds exactly the referenced objects of the store; the others are as they were. */
  ghost predicate HoldsRefs(t: Tools, d: Disk, r: Disk, s: Source) {
    && s.id in r.dirs && r.dirs[s.id].cfs == Some(s.cfs)
    && r.dirs[s.id].holder.Keys == Present(r, t.refs(s.cfs))
    && forall i | i != s.id && i in r.dirs :: i in d.dirs && r.dirs[i] == d.dirs[i]
  }

  lemma {:induction false} LinksHold(t: Tools, d: Disk, s: Source)
    requires Inv(t, d) && s.id in d.dirs && d.dirs[s.id] == Dir(Some(s.cfs), true, map[], None, None)
    ensures HoldsRefs(t, d, Run(d, LinkRefs(d, s.id, t.refs(s.cfs))), s)
  {
    LinkRefsEffect(t, d, s.id, t.refs(s.cfs));
  }

  lemma {:induction false} CopiesHold(t: Tools, d: Disk, m: Disk, s: Source, op: Op)
    requires HoldsRefs(t, d, m, s) && (op.CopyUki? || op.CopyLoader?) && op.id == s.id
    ensures HoldsRefs(t, d, Apply(m, op), s)
  {
  }

  lemma {:induction false} FinishHolds(t: Tools, d: Disk, s: Source)
    requires Inv(t, d) && s.uki.Some? && s.id in d.dirs && d.dirs[s.id] == Dir(Some(s.cfs), true, map[], None, None)
    ensures HoldsRefs(t, d, Run(d, Finish(t, d, s)), s)
  {
    var links := LinkRefs(d, s.id, t.refs(s.cfs));
    var u := CopyUki(s.id, s.uki.value);
    var m := Run(d, links);
    LinksHold(t, d, s);
    CopiesHold(t, d, m, s, u);
    RunConcat(d, links, [u]);
    RunOne(m, u);
    if s.loader.Some? {
      var l := CopyLoader(s.id, s.loader.value);
      RunConcat(d, links + [u], [l]);
      RunOne(Apply(m, u), l);
      CopiesHold(t, d, Apply(m, u), s, l);
    } else {
      assert Finish(t, d, s) == links + [u];
    }
  }

  lemma {:induction false} BuildHolds(t: Tools, d: Disk, s: Source)
    requires Inv(t, d) && s.uki.Some? && s.id in d.dirs && d.dirs[s.id] == EMPTY_DIR && Build(t, d, s).ok
    ensures HoldsRefs(t, d, Do(d, Build(t, d, s)), s)
  {
    var m := Do(d, PlaceCfs(t, s));
    PlaceCfsEffect(t, d, s);
    FinishHolds(t, m, s);
    RunConcat(d, PlaceCfs(t, s).ops, Finish(t, m, s));
  }

  lemma {:induction false} MaterializeHolds(t: Tools, d: Disk, s: Source)
    requires Inv(t, d) && SourceOk(t, s) && !HasCfs(d, s.id) && Materialize(t, d, s).ok
    ensures HoldsRefs(t, d, Do(d, Materialize(t, d, s)), s)
  {
    var mk := Apply(d, MkDir(s.id));
    var l := Landed(t, d, s);
    var n := Do(mk, l);
    LandedEffect(t, d, s);
    LandedQuiet(t, d, s, {});
    BuildHolds(t, n, s);
    RunConcat(d, [MkDir(s.id)], l.ops + Build(t, n, s).ops);
    RunOne(d, MkDir(s.id));
    RunConcat(mk, l.ops, Build(t, n, s).ops);
  }

  lemma {:induction false} StageHolds(t: Tools, d: Disk, s: Source)
    requires Inv(t, d) && SourceOk(t, s) && !HasCfs(d, s.id) && Stage(t, d, s).ok
    ensures HoldsRefs(t, d, Do(d, Stage(t, d, s)), s)
  {
    var p := Materialize(t, d, s);
    MaterializeHolds(t, d, s);
    SetRoleEffect(t, Do(d, p), Staging, s.id);
    RunConcat(d, p.ops, SetRole(Do(d, p), Staging, s.id));
  }

  // --------------------------------------------------------- the redeploy

  /** The staged disk of a redeploy: `g` is there, unsealed, held by the new deployment alone, if at all. */
  ghost predicate Tainted(t: Tools, n: Disk, s: Source, g: Digest) {
    && Obj(g) in n.shared && !IsSealed(n, g) && SealedBut(n, Some(g))
    && s.id in n.dirs && n.dirs[s.id].cfs == Some(s.cfs)
    && (g in n.dirs[s.id].holder <==> g in t.refs(s.cfs))
    && forall i | i in n.dirs && i != s.id :: g !in n.dirs[i].holder
  }

  lemma {:induction false} RestageTaints(t: Tools, m: Disk, s: Source, g: Digest)
    requires Inv(t, m) && SourceOk(t, s) && !HasCfs(m, s.id) && Stage(t, m, s).ok
    requires Obj(g) in m.shared && !IsSealed(m, g) && SealedBut(m, Some(g)) && TempsPlain(m)
    requires Holders(m.dirs, g) == {}
    ensures Tainted(t, Do(m, Stage(t, m, s)), s, g)
  {
    var n := Do(m, Stage(t, m, s));
    StageShape(t, m, s);
    StageLegal(t, m, s);
    StaysUnsealed(t, m, Stage(t, m, s).ops, g);
    KeepsSealedBut(t, m, Stage(t, m, s).ops, Some(g));
    StageHolds(t, m, s);
    forall i | i in n.dirs && i != s.id ensures g !in n.dirs[i].holder {
      assert i !in Holders(m.dirs, g);
    }
  }

  lemma {:induction false} TaintAfterGc(t: Tools, e: Disk, s: Source, g: Digest)
    requires ToolsOk(t) && Inv(t, e) && Tainted(t, e, s, g) && RoleHeld(e.roles, s.id)
    ensures var r := Run(e, Gc(t, e));
            && Inv(t, r) && s.id in r.dirs && r.dirs[s.id] == e.dirs[s.id]
            && (AllSealed(r) <==> g !in t.refs(s.cfs)) && SealedBut(r, Some(g)) && !IsSealed(r, g)
  {
    var r := Run(e, Gc(t, e));
    GcIsReachability(t, e);
    assert Reachable(e, g) <==> g in t.refs(s.cfs);
    if g in t.refs(s.cfs) {
      assert Obj(g) in r.shared;
    } else {
      assert Obj(g) !in r.shared;
    }
  }

  /** A complete deployment on a disk where `g` alone lacks its seal, or is not there. */
  lemma {:induction false} MountsUnlessNeeded(t: Tools, r: Disk, image: Image, g: Digest)
    requires Inv(t, r) && SealedBut(r, Some(g)) && !IsSealed(r, g)
    requires image.id in r.dirs && Complete(t, r.dirs[image.id], image.digest)
    ensures Mounts(t, r, image) <==> g !in Needed(t, r.dirs[image.id].cfs.value)
  {
    var dir := r.dirs[image.id];
    forall h | h in Needed(t, dir.cfs.value) ensures Obj(h) in r.shared && t.measure(ObjBytes(r, h)) == h {
      assert h in dir.holder;
    }
  }

  /**
   How a finished deploy of `s` ends when `g` is not sealed: all is sealed unless the image refers to `g`, and what is
   now current mounts unless it needs `g`.
   */
  ghost predicate EndsWith(t: Tools, r: Disk, s: Source, g: Digest) {
    && (AllSealed(r) <==> g !in t.refs(s.cfs))
    && CurrentEfi in r.esp && r.esp[CurrentEfi].id == s.id
    && (Mounts(t, r, r.esp[CurrentEfi]) <==> g !in Needed(t, s.cfs))
  }

  lemma {:induction false} TaintAfterPromote(t: Tools, n: Disk, s: Source, g: Digest)
    requires ToolsOk(t) && Inv(t, n) && Tainted(t, n, s, g)
    requires Get(n, Current) != Some(s.id) && Staged(n, s.id).Some?
    ensures EndsWith(t, Do(n, Promote(t, n, s.id)), s, g)
  {
    var image := Staged(n, s.id).value;
    var e := Run(n, Flip(n, s.id, image));
    assert Committed(t, s.id, n.dirs[s.id]);
    Flipped(t, n, s.id);
    FlipThenGc(t, n, s.id);
    assert Tainted(t, e, s, g);
    TaintAfterGc(t, e, s, g);
    PromoteEffect(t, n, s.id);
    MountsUnlessNeeded(t, Run(e, Gc(t, e)), image, g);
  }

  /** Whatever image is deployed next, the one that was interrupted or another, while `g` lies there unsealed. */
  lemma {:induction false} DeployOverUnsealed(t: Tools, m: Disk, s: Source, g: Digest)
    requires ToolsOk(t) && Inv(t, m) && SourceOk(t, s) && !HasCfs(m, s.id) && Get(m, Current) != Some(s.id)
    requires Obj(g) in m.shared && !IsSealed(m, g) && SealedBut(m, Some(g)) && TempsPlain(m)
    requires Holders(m.dirs, g) == {} && Deploy(t, m, s).ok
    ensures EndsWith(t, Do(m, Deploy(t, m, s)), s, g)
  {
    DeploySteps(t, m, s);
    StageQuietly(t, m, s);
    RestageTaints(t, m, s, g);
    TaintAfterPromote(t, Do(m, Stage(t, m, s)), s, g);
  }

  /**
   A deploy that stopped between an object's rename and its seal, and then, without a gc in between, a finished
   deploy of the same or of any other new image: the store is sealed again if and only if that image does not
   refer to the object, and what is now current can be mounted if and only if it does not need it.
   */
  lemma {:induction false} RedeployExactly(t: Tools, d: Disk, s: Source, k: nat, u: Source)
    requires ToolsOk(t) && Inv(t, d) && AllSealed(d) && TempsPlain(d) && SourceOk(t, s) && SourceOk(t, u)
    requires !HasCfs(d, s.id) && Get(d, Current) != Some(s.id)
    requires !HasCfs(d, u.id) && Get(d, Current) != Some(u.id)
    requires MidSeal(Deploy(t, d, s).ops, k)
    requires Deploy(t, Run(d, Deploy(t, d, s).ops[..k]), u).ok
    ensures var ops := Deploy(t, d, s).ops;
            var m := Run(d, ops[..k]);
            EndsWith(t, Do(m, Deploy(t, m, u)), u, ops[k - 1].digest)
  {
    var ops := Deploy(t, d, s).ops;
    SealedExactly(t, d, DeployCmd(s), k);
    DeployLegal(t, d, s);
    JustPlaced(t, d, ops, k);
    MidSealIsEarly(t, d, s, k);
    DeployOverUnsealed(t, Run(d, ops[..k]), u, ops[k - 1].digest);
  }
}
