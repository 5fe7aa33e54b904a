/**
 `stage` takes a `root.cfs` for a deployment; the UKI is copied later. A build that ends in between leaves a
 deployment that is reused and cannot be promoted. Exactly when that happens, and what does and does not help.
 */
module Wedge {
  import opened Options
  import opened Filesystem
  import opened Objects
  import opened Lifecycle
  import opened Safety
  import opened Rollbacks
  import opened Runs
  import opened Promotions
  import opened Stranded
  import opened Recovery
  import opened Unsealed

  /** Reusable for `stage`, not good enough for `promote`. */
  predicate Wedged(d: Disk, id: Id) { HasCfs(d, id) && d.dirs[id].uki.None? }

  // ------------------------------------------------------ when it happens

  /** Operations that neither copy the deployment's `root.cfs` or UKI nor remove it. */
  predicate Aside(op: Op, id: Id) { !((op.CopyCfs? || op.CopyUki? || op.RmTree?) && op.id == id) }

  predicate AllAside(ops: seq<Op>, id: Id) { forall op | op in ops :: Aside(op, id) }

  ghost predicate SameMarks(d: Disk, r: Disk, id: Id) {
    HasCfs(r, id) == HasCfs(d, id) && Staged(r, id) == Staged(d, id)
  }

  lemma {:induction false} OpAside(d: Disk, op: Op, id: Id)
    requires Aside(op, id)
    ensures SameMarks(d, Apply(d, op), id)
  {
  }

  lemma {:induction false} OpsAside(d: Disk, ops: seq<Op>, id: Id)
    requires AllAside(ops, id)
    ensures SameMarks(d, Run(d, ops), id)
    decreases |ops|
  {
    if ops != [] {
      OpAside(d, ops[0], id);
      OpsAside(Apply(d, ops[0]), ops[1..], id);
    }
  }

  /** The disk when landing is over, and the links that follow. */
  function AfterLanding(t: Tools, d: Disk, s: Source): Disk { Do(Apply(d, MkDir(s.id)), Landed(t, d, s)) }

  function Links(t: Tools, d: Disk, s: Source): seq<Op> {
    LinkRefs(Do(AfterLanding(t, d, s), PlaceCfs(t, s)), s.id, t.refs(s.cfs))
  }

  /** How many operations of a build it takes to have the UKI in place. */
  function UkiPlaced(t: Tools, d: Disk, s: Source): nat { |Landing(t, d, s)| + 3 + |Links(t, d, s)| }

  /** Landing, the copy of `root.cfs`, seal and links, the copy of the UKI, and what follows. */
  function Blocks(t: Tools, d: Disk, s: Source, tail: seq<Op>): seq<Op>
    requires s.uki.Some?
  {
    Landing(t, d, s) + [CopyCfs(s.id, s.cfs)] + ([SealCfs(s.id)] + Links(t, d, s)) + [CopyUki(s.id, s.uki.value)] + tail
  }

  /** A stage that builds carries these out, all of them or, when it dies, the first ones. */
  lemma {:induction false} StageBlocks(t: Tools, d: Disk, s: Source, id: Id) returns (tail: seq<Op>)
    requires !HasCfs(d, s.id) && s.uki.Some?
    ensures AllAside(tail, id) && Stage(t, d, s).ops <= Blocks(t, d, s, tail)
  {
    var l := Landed(t, d, s);
    var b := Build(t, AfterLanding(t, d, s), s);
    if l.ok && b.ok {
      tail := WholeBlocks(t, d, s, id);
    } else {
      tail := [];
      assert Stage(t, d, s).ops == if l.ok then [MkDir(s.id)] + (l.ops + b.ops) else Landing(t, d, s);
    }
  }

  lemma {:induction false} WholeBlocks(t: Tools, d: Disk, s: Source, id: Id) returns (tail: seq<Op>)
    requires !HasCfs(d, s.id) && s.uki.Some? && Stage(t, d, s).ok
    ensures AllAside(tail, id) && Stage(t, d, s).ops == Blocks(t, d, s, tail)
  {
    var mark := SetRole(Do(d, Materialize(t, d, s)), Staging, s.id);
    var loader: seq<Op> := if s.loader.Some? then [CopyLoader(s.id, s.loader.value)] else [];
    tail := loader + mark;
    assert Finish(t, Do(AfterLanding(t, d, s), PlaceCfs(t, s)), s)
        == Links(t, d, s) + [CopyUki(s.id, s.uki.value)] + loader;
    RegroupBuild(MkDir(s.id), Landed(t, d, s).ops, CopyCfs(s.id, s.cfs), SealCfs(s.id), Links(t, d, s),
            CopyUki(s.id, s.uki.value), loader, mark);
  }

  lemma {:induction false} RegroupBuild(mk: Op, l: seq<Op>, c: Op, e: Op, links: seq<Op>, u: Op, loader: seq<Op>,
                                        mark: seq<Op>)
    ensures ([mk] + (l + ([c, e] + (links + [u] + loader)))) + mark
         == ([mk] + l) + [c] + ([e] + links) + [u] + (loader + mark)
  {
  }

  lemma {:induction false} LandingAside(t: Tools, d: Disk, s: Source, id: Id)
    requires Inv(t, d) && SourceOk(t, s) && !HasCfs(d, s.id)
    ensures AllAside(Landing(t, d, s), id)
  {
    LandedEffect(t, d, s);
    forall op | op in Landed(t, d, s).ops ensures Aside(op, id) { assert StoreOp(op); }
  }

  lemma {:induction false} LinksAside(t: Tools, d: Disk, s: Source, id: Id)
    requires Inv(t, d) && SourceOk(t, s) && !HasCfs(d, s.id)
    ensures AllAside([SealCfs(s.id)] + Links(t, d, s), id)
  {
    LandedQuiet(t, d, s, {});
    var n := AfterLanding(t, d, s);
    PlaceCfsEffect(t, n, s);
    LinkRefsLegal(t, Do(n, PlaceCfs(t, s)), s.id, t.refs(s.cfs));
    forall op | op in Links(t, d, s) ensures Aside(op, id) { assert op.Link?; }
  }

  /** What a prefix of three blocks with two copies between them has done. */
  lemma {:induction false} BlocksPrefix(d: Disk, id: Id, a: seq<Op>, c: Op, b: seq<Op>, u: Op, z: seq<Op>, k: nat)
    requires AllAside(a, id) && AllAside(b, id) && AllAside(z, id)
    requires c.CopyCfs? && u.CopyUki? && c.id == id && u.id == id
    requires !HasCfs(d, id) && Staged(d, id).None? && id in Run(d, a).dirs
    requires k <= |a + [c] + b + [u] + z|
    ensures Wedged(Run(d, (a + [c] + b + [u] + z)[..k]), id) <==> |a| < k < |a| + |b| + 2
  {
    var m := Run(d, a);
    OpsAside(d, a, id);
    var n := Apply(m, c);
    RunConcat(d, a, [c]);
    RunOne(m, c);
    OpsAside(n, b, id);
    RunConcat(d, a + [c], b);
    if k <= |a| {
      assert (a + [c] + b + [u] + z)[..k] == a[..k];
      OpsAside(d, a[..k], id);
    } else if k < |a| + |b| + 2 {
      assert (a + [c] + b + [u] + z)[..k] == a + [c] + b[..k - |a| - 1];
      RunConcat(d, a + [c], b[..k - |a| - 1]);
      OpsAside(n, b[..k - |a| - 1], id);
    } else {
      var j := k - |a| - |b| - 2;
      assert (a + [c] + b + [u] + z)[..k] == a + [c] + b + [u] + z[..j];
      UkiMarks(Run(d, a + [c] + b), u, z[..j]);
      RunConcat(d, a + [c] + b, [u]);
      RunConcat(d, a + [c] + b + [u], z[..j]);
    }
  }

  lemma {:induction false} UkiMarks(m: Disk, u: Op, z: seq<Op>)
    requires u.CopyUki? && AllAside(z, u.id) && HasCfs(m, u.id)
    ensures !Wedged(Run(Run(m, [u]), z), u.id)
  {
    RunOne(m, u);
    OpsAside(Apply(m, u), z, u.id);
  }

  /**
   A stage that builds, stopped (or dying) after `k` operations, leaves the deployment wedged if and only if
   `root.cfs` has been copied and the UKI has not.
   */
  lemma {:induction false} WedgedExactly(t: Tools, d: Disk, s: Source, k: nat)
    requires Inv(t, d) && SourceOk(t, s) && !HasCfs(d, s.id) && k <= |Stage(t, d, s).ops|
    ensures Wedged(Run(d, Stage(t, d, s).ops[..k]), s.id) <==>
              |Landing(t, d, s)| < k < UkiPlaced(t, d, s) && s.uki.Some?
  {
    assert s.id in d.dirs ==> Committed(t, s.id, d.dirs[s.id]);
    if s.uki.Some? {
      var tail := StageBlocks(t, d, s, s.id);
      assert Stage(t, d, s).ops[..k] == Blocks(t, d, s, tail)[..k];
      LandingAside(t, d, s, s.id);
      LinksAside(t, d, s, s.id);
      LandingMakes(t, d, s);
      BlocksPrefix(d, s.id, Landing(t, d, s), CopyCfs(s.id, s.cfs), [SealCfs(s.id)] + Links(t, d, s),
                   CopyUki(s.id, s.uki.value), tail, k);
    } else {
      assert Stage(t, d, s).ops == [];
    }
  }

  lemma {:induction false} LandingMakes(t: Tools, d: Disk, s: Source)
    requires Inv(t, d) && SourceOk(t, s) && !HasCfs(d, s.id)
    ensures s.id in Run(d, Landing(t, d, s)).dirs
  {
    LandedQuiet(t, d, s, {});
    RunConcat(d, [MkDir(s.id)], Landed(t, d, s).ops);
    RunOne(d, MkDir(s.id));
  }

  // ------------------------------------------------------ what does not help

  /** Wedged, marked, and not current. */
  ghost predicate Stuck(t: Tools, d: Disk, id: Id) {
    Inv(t, d) && Wedged(d, id) && NamedBy(d.roles, Staging, id) && Get(d, Current) != Some(id)
  }

  lemma {:induction false} RestageWedged(t: Tools, d: Disk, s: Source)
    requires HasCfs(d, s.id)
    ensures Stage(t, d, s) == Plan(SetRole(d, Staging, s.id), true)
    ensures Do(d, Stage(t, d, s)) == d.(roles := d.roles[Staging := s.id], roleTmps := d.roleTmps - {Staging})
  {
    assert [] + SetRole(d, Staging, s.id) == SetRole(d, Staging, s.id);
    SetRoleEffect(t, d, Staging, s.id);
  }

  lemma {:induction false} DeployWedged(t: Tools, d: Disk, s: Source)
    requires Wedged(d, s.id) && Get(d, Current) != Some(s.id)
    ensures !Deploy(t, d, s).ok && Deploy(t, d, s).ops == Stage(t, d, s).ops
  {
    RestageWedged(t, d, s);
    assert Promote(t, Do(d, Stage(t, d, s)), s.id) == Plan([], false);
  }

  lemma {:induction false} MarkedWedged(t: Tools, d: Disk, s: Source)
    requires Wedged(d, s.id) && Get(d, Current) != Some(s.id)
    ensures var r := Do(d, Stage(t, d, s));
            Wedged(r, s.id) && NamedBy(r.roles, Staging, s.id) && Get(r, Current) != Some(s.id)
  {
    RestageWedged(t, d, s);
  }

  /** Deploying it again reuses the directory, marks it, and dies for want of the UKI. */
  lemma {:induction false} RetryDies(t: Tools, d: Disk, s: Source)
    requires Inv(t, d) && SourceOk(t, s) && Wedged(d, s.id) && Get(d, Current) != Some(s.id)
    ensures !Deploy(t, d, s).ok && Stuck(t, Do(d, Deploy(t, d, s)), s.id)
  {
    DeployWedged(t, d, s);
    DeployLegal(t, d, s);
    LegalKeeps(t, d, Deploy(t, d, s).ops);
    MarkedWedged(t, d, s);
  }

  lemma {:induction false} MarkingChangesNothing(d: Disk, id: Id, ops: seq<Op>, k: nat)
    requires NamedBy(d.roles, Staging, id) && ops == SetRole(d, Staging, id) && k <= |ops|
    ensures Run(d, ops[..k]).roles == d.roles && Run(d, ops[..k]).dirs == d.dirs
  {
    SetRolePrefix(d, Staging, id, k);
    assert d.roles[Staging := id] == d.roles;
  }

  /** A retry stopped anywhere issues no others. */
  lemma {:induction false} StoppedRetryStuck(t: Tools, d: Disk, s: Source, k: nat)
    requires SourceOk(t, s) && Stuck(t, d, s.id) && k <= |Deploy(t, d, s).ops|
    ensures Stuck(t, Run(d, Deploy(t, d, s).ops[..k]), s.id)
  {
    DeployWedged(t, d, s);
    RestageWedged(t, d, s);
    DeployKeepsLaws(t, d, s, k);
    MarkingChangesNothing(d, s.id, Deploy(t, d, s).ops, k);
  }

  /** gc, stopped anywhere, keeps what is marked. */
  lemma {:induction false} GcKeepsStuck(t: Tools, d: Disk, id: Id, k: nat)
    requires Stuck(t, d, id) && k <= |Gc(t, d)|
    ensures Stuck(t, Run(d, Gc(t, d)[..k]), id)
  {
    var ops := Gc(t, d);
    GcLegal(t, d);
    LegalPrefix(t, d, ops, k);
    LegalKeeps(t, d, ops[..k]);
    GcRemoves(t, d);
    RemovalsKeepRoles(d, ops[..k]);
    GcAside(t, d, id);
    OpsAside(d, ops[..k], id);
  }

  lemma {:induction false} GcAside(t: Tools, d: Disk, id: Id)
    requires Inv(t, d) && RoleHeld(d.roles, id)
    ensures AllAside(Gc(t, d), id)
  {
    GcRemoves(t, d);
    GcQuiet(t, d, {id});
    forall op | op in Gc(t, d) ensures Aside(op, id) { assert Removal(op) && Quiet(op, {id}); }
  }

  ghost predicate Retries(events: seq<Event>, s: Source) {
    forall e | e in events :: e.command == DeployCmd(s) || e.command == GcCmd
  }

  lemma {:induction false} StuckAfter(t: Tools, d: Disk, s: Source, e: Event)
    requires SourceOk(t, s) && Stuck(t, d, s.id) && (e.command == DeployCmd(s) || e.command == GcCmd)
    ensures Stuck(t, Run(d, Until(PlanOf(t, d, e.command).ops, e.stop)), s.id)
  {
    var ops := PlanOf(t, d, e.command).ops;
    var k := if e.stop <= |ops| then e.stop else |ops|;
    assert Until(ops, e.stop) == ops[..k];
    if e.command == GcCmd { GcKeepsStuck(t, d, s.id, k); } else { StoppedRetryStuck(t, d, s, k); }
  }

  /** Once marked, no number of retries and gcs, in any order and each stopped anywhere, gets it out. */
  lemma {:induction false} StuckForGood(t: Tools, d: Disk, s: Source, events: seq<Event>)
    requires SourceOk(t, s) && Stuck(t, d, s.id) && Retries(events, s)
    ensures Stuck(t, History(t, d, events), s.id) && !Deploy(t, History(t, d, events), s).ok
    decreases |events|
  {
    if events == [] {
      DeployWedged(t, d, s);
    } else {
      var e := events[0];
      assert e in events;
      StuckAfter(t, d, s, e);
      StuckForGood(t, Run(d, Until(PlanOf(t, d, e.command).ops, e.stop)), s, events[1..]);
    }
  }

  // ------------------------------------------------------------ what helps

  lemma {:induction false} StageAside(t: Tools, d: Disk, s: Source, id: Id)
    requires Inv(t, d) && SourceOk(t, s) && s.id != id
    ensures AllAside(Stage(t, d, s).ops, id)
  {
    if HasCfs(d, s.id) {
      RestageWedged(t, d, s);
    } else if s.uki.Some? {
      var tail := StageBlocks(t, d, s, id);
      LandingAside(t, d, s, id);
      LinksAside(t, d, s, id);
      var ops := Stage(t, d, s).ops;
      assert AllAside(Blocks(t, d, s, tail), id);
      assert forall op | op in ops :: op in Blocks(t, d, s, tail);
    }
  }

  lemma {:induction false} FlippedHeld(roles: map<Role, Id>, id: Id, other: Id)
    requires id != other && !NamedBy(roles, Current, id)
    ensures RoleHeld(Promoted(roles, other), id) <==> Current !in roles && NamedBy(roles, Fallback, id)
  {
  }

  /**
   A finished deploy of another image takes the mark away, and its gc the directory: the id is free, if and only if
   it is not the fallback of a host without a current deployment.
   */
  lemma {:induction false} OtherDeployFrees(t: Tools, d: Disk, s: Source, id: Id)
    requires ToolsOk(t) && SourceOk(t, s) && Stuck(t, d, id) && s.id != id
    requires Get(d, Current) != Some(s.id) && Deploy(t, d, s).ok
    ensures HasCfs(Do(d, Deploy(t, d, s)), id) <==> Current !in d.roles && NamedBy(d.roles, Fallback, id)
  {
    var n := Do(d, Stage(t, d, s));
    DeploySteps(t, d, s);
    StageQuietly(t, d, s);
    StageAside(t, d, s, id);
    OpsAside(d, Stage(t, d, s).ops, id);
    assert Get(n, Current) == Get(d, Current) && Get(n, Fallback) == Get(d, Fallback);
    PromoteFrees(t, n, s.id, id);
  }

  ghost function Holding(dirs: map<Id, Dir>, roles: map<Role, Id>): map<Id, Dir> {
    map i | i in dirs && RoleHeld(roles, i) :: dirs[i]
  }

  lemma {:induction false} PromoteHolds(t: Tools, n: Disk, other: Id)
    requires ToolsOk(t) && Inv(t, n) && Get(n, Current) != Some(other) && Staged(n, other).Some?
    ensures Do(n, Promote(t, n, other)).dirs == Holding(n.dirs, Promoted(n.roles, other))
  {
    var e := Run(n, Flip(n, other, Staged(n, other).value));
    Flipped(t, n, other);
    FlipThenGc(t, n, other);
    GcKeepsHeld(t, e);
    assert HeldDirs(e) == Holding(e.dirs, e.roles);
  }

  lemma {:induction false} PromoteFrees(t: Tools, n: Disk, other: Id, id: Id)
    requires ToolsOk(t) && Inv(t, n) && HasCfs(n, id) && id != other && Get(n, Current) != Some(id)
    requires Get(n, Current) != Some(other) && Staged(n, other).Some?
    ensures HasCfs(Do(n, Promote(t, n, other)), id) <==> Current !in n.roles && NamedBy(n.roles, Fallback, id)
  {
    PromoteHolds(t, n, other);
    FlippedHeld(n.roles, id, other);
    assert id in Holding(n.dirs, Promoted(n.roles, other)) <==> RoleHeld(Promoted(n.roles, other), id);
  }

  /** A gc before the retry removes the directory, if and only if no role has come to name it. */
  lemma {:induction false} GcFirstExactly(t: Tools, d: Disk, id: Id)
    requires ToolsOk(t) && Inv(t, d) && Wedged(d, id)
    ensures !HasCfs(Run(d, Gc(t, d)), id) <==> !RoleHeld(d.roles, id)
  {
    GcKeepsHeld(t, d);
    assert HeldDirs(d).Keys == set i | i in d.dirs && RoleHeld(d.roles, i);
  }

  /** And then the deploy goes as if nothing had happened, if its objects land and its `root.cfs` measures. */
  lemma {:induction false} CleanRetry(t: Tools, d: Disk, s: Source)
    requires Inv(t, d) && SourceOk(t, s) && !HasCfs(d, s.id) && Get(d, Current) != Some(s.id)
    ensures Deploy(t, d, s).ok <==> s.uki.Some? && Landed(t, d, s).ok && t.measure(s.cfs) == s.digest
  {
    if s.uki.Some? && Landed(t, d, s).ok && t.measure(s.cfs) == s.digest {
      MaterializeEffect(t, d, s);
      var p := Materialize(t, d, s);
      SetRoleEffect(t, Do(d, p), Staging, s.id);
      RunConcat(d, p.ops, SetRole(Do(d, p), Staging, s.id));
    }
  }

  // ------------------------------------ a wedged image and a stopped promotion

  lemma {:induction false} WedgedMarks(t: Tools, m: Disk, s: Source)
    requires Wedged(m, s.id) && Get(m, Current) != Some(s.id)
    ensures var j := |Deploy(t, m, s).ops|;
            Deploy(t, m, s).ops[..j] == Deploy(t, m, s).ops && Marked(t, m, s, j) && Promoting(t, m, s, j) == 0
  {
    DeployWedged(t, m, s);
    RestageWedged(t, m, s);
  }

  /**
   A promotion stopped in the window, and the next deploy is of an image some earlier build has wedged. It needs no
   second crash: the deploy marks the image, dies, and has taken the last name from what is on the ESP; a gc
   removes the deployment the current entry names.
   */
  lemma {:induction false} DyingDeployStrands(t: Tools, d: Disk, id: Id, k: nat, s: Source)
    requires ToolsOk(t) && Consistent(t, d) && NamedBy(d.roles, Staging, id) && SourceOk(t, s)
    requires Current in d.roles && d.roles[Current] != id && Staged(d, id).Some? && k <= |Promote(t, d, id).ops|
    requires WINDOW_START <= k < WindowEnd(d, id) && !(NamedBy(d.roles, Fallback, id) && k < Demoted(d, id))
    requires Wedged(Run(d, Promote(t, d, id).ops[..k]), s.id) && s.id != id && s.id != d.roles[Current]
    ensures var m := Run(d, Promote(t, d, id).ops[..k]);
            var x := Do(m, Deploy(t, m, s));
            EspSafe(t, m) && !Deploy(t, m, s).ok && !EspSafe(t, x) && Dangles(Run(x, Gc(t, x)), id, 0)
  {
    var m := Run(d, Promote(t, d, id).ops[..k]);
    WindowIsExact(t, d, id, k);
    StoppedLaws(t, d, id, k);
    DeployWedged(t, m, s);
    WedgedMarks(t, m, s);
    NextDeployStopped(t, d, id, k, s, |Deploy(t, m, s).ops|);
    NextDeployStoppedThenGc(t, d, id, k, s, |Deploy(t, m, s).ops|);
  }
}
