/**
 A promotion that stopped half way, and a later deploy. `promote` takes the old id from the role but copies
 the old image from the ESP; while the two disagree, the next deploy writes a fallback entry that its own gc
 may strand.
 */
module Stranded {
  import opened Filesystem
  import opened Objects
  import opened Lifecycle
  import opened Safety
  import opened Rollbacks
  import opened Runs
  import opened Promotions

  /** The current entry and the current role name the same deployment. */
  ghost predicate InStep(d: Disk) {
    CurrentEfi in d.esp && Current in d.roles && d.esp[CurrentEfi].id == d.roles[Current]
  }

  /** A promotion over an existing current, stopped anywhere: entry and role disagree in the window only. */
  lemma {:induction false} WindowIsExact(t: Tools, d: Disk, id: Id, k: nat)
    requires Consistent(t, d) && Current in d.roles && d.roles[Current] != id && Staged(d, id).Some?
    requires k <= |Promote(t, d, id).ops|
    ensures var m := Run(d, Promote(t, d, id).ops[..k]);
            && CurrentEfi in m.esp && Current in m.roles
            && m.esp[CurrentEfi].id == (if k < WINDOW_START then d.roles[Current] else id)
            && m.roles[Current] == (if k < WindowEnd(d, id) then d.roles[Current] else id)
            && (InStep(m) <==> !(WINDOW_START <= k < WindowEnd(d, id)))
  {
    assert Committed(t, id, d.dirs[id]);
    PromoteSteps(t, d, id, k);
  }

  // --------------------------------------------------------- the next deploy

  /** The current entry names a complete deployment, held or not. */
  ghost predicate EntryComplete(t: Tools, d: Disk) {
    && CurrentEfi in d.esp && d.esp[CurrentEfi].id in d.dirs
    && Complete(t, d.dirs[d.esp[CurrentEfi].id], d.esp[CurrentEfi].digest)
  }

  lemma {:induction false} StageCompletes(t: Tools, m: Disk, s: Source)
    requires Inv(t, m) && EntryComplete(t, m) && SourceOk(t, s)
    ensures EntryComplete(t, Do(m, Stage(t, m, s)))
  {
    var keep := {m.esp[CurrentEfi].id};
    StageLegal(t, m, s);
    StageQuiet(t, m, s, keep);
    QuietOpsKeep(t, m, Stage(t, m, s).ops, keep);
  }

  /** Roles and entries after a promotion over an existing current and a gc. */
  ghost predicate Replaced(n: Disk, r: Disk, id: Id)
    requires Current in n.roles && CurrentEfi in n.esp
  {
    && r.roles == map[Current := id, Fallback := n.roles[Current]]
    && CurrentEfi in r.esp && r.esp[CurrentEfi].id == id
    && FallbackEfi in r.esp && r.esp[FallbackEfi] == n.esp[CurrentEfi]
  }

  ghost function Only(dirs: map<Id, Dir>, a: Id, b: Id): map<Id, Dir> {
    map i | i in dirs && (i == a || i == b) :: dirs[i]
  }

  lemma {:induction false} GcLeavesOnly(t: Tools, e: Disk, a: Id, b: Id)
    requires ToolsOk(t) && Inv(t, e) && e.roles == map[Current := a, Fallback := b]
    ensures Inv(t, Run(e, Gc(t, e))) && Run(e, Gc(t, e)).dirs == Only(e.dirs, a, b)
  {
    GcKeepsHeld(t, e);
    HeldOnly(e, a, b);
  }

  lemma {:induction false} HeldOnly(e: Disk, a: Id, b: Id)
    requires e.roles == map[Current := a, Fallback := b]
    ensures HeldDirs(e) == Only(e.dirs, a, b)
  {
    assert forall i :: RoleHeld(e.roles, i) <==> i == a || i == b;
  }

  lemma {:induction false} PromoteReplaces(t: Tools, n: Disk, id: Id)
    requires Inv(t, n) && Current in n.roles && CurrentEfi in n.esp
    requires n.roles[Current] != id && Staged(n, id).Some?
    ensures var r := Do(n, Promote(t, n, id));
            Replaced(n, r, id) && r.esp[CurrentEfi] == Staged(n, id).value
  {
    assert Committed(t, id, n.dirs[id]);
    PromoteEffect(t, n, id);
    PromotedTwo(n.roles, id);
  }

  lemma {:induction false} PromoteLeavesOnly(t: Tools, n: Disk, id: Id)
    requires ToolsOk(t) && Inv(t, n) && Current in n.roles && n.roles[Current] != id && Staged(n, id).Some?
    ensures var r := Do(n, Promote(t, n, id));
            Inv(t, r) && r.dirs == Only(n.dirs, id, n.roles[Current])
  {
    Flipped(t, n, id);
    FlipThenGc(t, n, id);
    PromotedTwo(n.roles, id);
    GcLeavesOnly(t, Run(n, Flip(n, id, Staged(n, id).value)), id, n.roles[Current]);
  }

  lemma {:induction false} PromotedTwo(roles: map<Role, Id>, id: Id)
    requires Current in roles
    ensures Promoted(roles, id) == map[Current := id, Fallback := roles[Current]]
  {
    var l, r := Promoted(roles, id), map[Current := id, Fallback := roles[Current]];
    forall k: Role ensures k in l <==> k in r {
      match k
      case Current =>
      case Fallback =>
      case Staging =>
    }
  }

  lemma {:induction false} ReplacedAgree(t: Tools, n: Disk, r: Disk, id: Id)
    requires Current in n.roles && EntryComplete(t, n) && Replaced(n, r, id) && n.roles[Current] != id
    requires id in r.dirs && Complete(t, r.dirs[id], r.esp[CurrentEfi].digest)
    requires r.dirs == Only(n.dirs, id, n.roles[Current])
    ensures Agree(t, r) <==> n.esp[CurrentEfi].id == n.roles[Current]
  {
  }

  lemma {:induction false} PromotedOver(t: Tools, n: Disk, id: Id)
    requires ToolsOk(t) && Inv(t, n) && EntryComplete(t, n) && Current in n.roles && n.roles[Current] != id
    requires Staged(n, id).Some?
    ensures var r := Do(n, Promote(t, n, id));
            && (Consistent(t, r) <==> InStep(n))
            && InStep(r) && EntryComplete(t, r) && Inv(t, r) && r.roles[Current] == id
            && FallbackEfi in r.esp && r.esp[FallbackEfi] == n.esp[CurrentEfi]
            && (r.esp[FallbackEfi].id in r.dirs <==> InStep(n) || n.esp[CurrentEfi].id == id)
  {
    var r := Do(n, Promote(t, n, id));
    PromoteReplaces(t, n, id);
    PromoteLeavesOnly(t, n, id);
    assert Committed(t, id, n.dirs[id]);
    ReplacedAgree(t, n, r, id);
  }

  lemma {:induction false} Restaged(t: Tools, m: Disk, s: Source)
    requires Inv(t, m) && EntryComplete(t, m) && SourceOk(t, s) && Current in m.roles
    ensures var n := Do(m, Stage(t, m, s));
            Inv(t, n) && n.esp == m.esp && NamedBy(n.roles, Current, m.roles[Current]) && EntryComplete(t, n)
  {
    StageQuietly(t, m, s);
    StageCompletes(t, m, s);
    assert Get(Do(m, Stage(t, m, s)), Current) == Get(m, Current);
  }

  /**
   A deploy of another image than the current one, finished, from any disk a crash may have left whose current
   entry can still be booted: afterwards ESP and roles agree, with both entries bootable, if and only if the
   current entry and the current role were in step before it.
   */
  lemma {:induction false} NextDeployExactly(t: Tools, m: Disk, s: Source)
    requires ToolsOk(t) && Inv(t, m) && EntryComplete(t, m) && SourceOk(t, s)
    requires Current in m.roles && m.roles[Current] != s.id && Deploy(t, m, s).ok
    ensures var r := Do(m, Deploy(t, m, s));
            && (Consistent(t, r) <==> InStep(m))
            && InStep(r) && EntryComplete(t, r) && Inv(t, r) && r.roles[Current] == s.id
            && FallbackEfi in r.esp && r.esp[FallbackEfi] == m.esp[CurrentEfi]
            && (r.esp[FallbackEfi].id in r.dirs <==> InStep(m) || m.esp[CurrentEfi].id == s.id)
  {
    DeploySteps(t, m, s);
    Restaged(t, m, s);
    PromotedOver(t, Do(m, Stage(t, m, s)), s.id);
  }

  /** Whatever the crash, stranded or not: the second of two finished deploys makes the host consistent. */
  lemma {:induction false} SecondDeployHeals(t: Tools, m: Disk, s: Source, u: Source)
    requires ToolsOk(t) && Inv(t, m) && EntryComplete(t, m) && SourceOk(t, s) && SourceOk(t, u) && u.id != s.id
    requires Current in m.roles && m.roles[Current] != s.id && Deploy(t, m, s).ok
    requires Deploy(t, Do(m, Deploy(t, m, s)), u).ok
    ensures var r := Do(m, Deploy(t, m, s));
            Consistent(t, Do(r, Deploy(t, r, u)))
  {
    NextDeployExactly(t, m, s);
    NextDeployExactly(t, Do(m, Deploy(t, m, s)), u);
  }

  /**
   The whole story of a promotion stopped after `k` operations and followed by a finished deploy of a third
   image: the fallback entry names a deployment that is there, and the host is consistent again, if and only
   if `k` is outside the window. Inside it, gc has removed the deployment the fallback entry names.
   */
  lemma {:induction false} ThirdDeployExactly(t: Tools, d: Disk, id: Id, k: nat, s: Source)
    requires ToolsOk(t) && Consistent(t, d) && NamedBy(d.roles, Staging, id)
    requires Current in d.roles && d.roles[Current] != id && Staged(d, id).Some?
    requires k <= |Promote(t, d, id).ops|
    requires SourceOk(t, s) && s.id != id && s.id != d.roles[Current]
    requires Deploy(t, Run(d, Promote(t, d, id).ops[..k]), s).ok
    ensures var m := Run(d, Promote(t, d, id).ops[..k]);
            var r := Do(m, Deploy(t, m, s));
            && FallbackEfi in r.esp
            && (r.esp[FallbackEfi].id in r.dirs <==> !(WINDOW_START <= k < WindowEnd(d, id)))
            && (Consistent(t, r) <==> !(WINDOW_START <= k < WindowEnd(d, id)))
  {
    var ops := Promote(t, d, id).ops;
    WindowIsExact(t, d, id, k);
    AlwaysPromote(t, d, id);
    PromoteLegal(t, d, id);
    LegalPrefix(t, d, ops, k);
    LegalKeeps(t, d, ops[..k]);
    NextDeployExactly(t, Run(d, ops[..k]), s);
  }

  lemma {:induction false} RolledBackStep(t: Tools, d: Disk, k: nat)
    requires Consistent(t, d) && Reversible(d) && k <= |Rollback(d).ops|
    ensures var m := Run(d, Rollback(d).ops[..k]);
            && Inv(t, m) && EntryComplete(t, m)
            && NamedBy(m.roles, Current, if k < FirstFlip(d) then d.roles[Current] else d.roles[Fallback])
            && (InStep(m) <==> k < 2 || k >= FirstFlip(d))
  {
    ConsistentFallback(t, d);
    ConsistentSteps(t, d, k);
  }

  /**
   The same for a rollback: stopped after `k` operations and followed by a finished deploy of a third image, the
   host is consistent again if and only if the stop was before the entries were swapped or after the first
   role flip. A stop between the flips, which endangers the fallback, is made good by the deploy.
   */
  lemma {:induction false} DeployAfterRollbackExactly(t: Tools, d: Disk, k: nat, s: Source)
    requires ToolsOk(t) && Consistent(t, d) && Reversible(d) && k <= |Rollback(d).ops|
    requires SourceOk(t, s) && s.id != d.roles[Current] && s.id != d.roles[Fallback]
    requires Deploy(t, Run(d, Rollback(d).ops[..k]), s).ok
    ensures var m := Run(d, Rollback(d).ops[..k]);
            var r := Do(m, Deploy(t, m, s));
            Consistent(t, r) <==> k < 2 || k >= FirstFlip(d)
  {
    RolledBackStep(t, d, k);
    NextDeployExactly(t, Run(d, Rollback(d).ops[..k]), s);
  }
}
