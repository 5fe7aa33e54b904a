/**
 Safety over whole runs: commands that finish, commands that die, and a crash in the middle of a deploy.
 */
module Runs {
  import opened Options
  import opened Filesystem
  import opened Objects
  import opened Lifecycle
  import opened Safety
  import opened Rollbacks

  // ---------------------------------------------- each command is consistent

  lemma {:induction false} StageConsistent(t: Tools, d: Disk, s: Source, k: nat)
    requires Consistent(t, d) && SourceOk(t, s) && k <= |Stage(t, d, s).ops|
    ensures Consistent(t, Run(d, Stage(t, d, s).ops[..k]))
  {
    StageLegal(t, d, s);
    StageQuiet(t, d, s, BootIds(d));
    AlwaysQuiet(t, d, Stage(t, d, s).ops);
  }

  lemma {:induction false} StageQuietly(t: Tools, d: Disk, s: Source)
    requires Inv(t, d) && SourceOk(t, s)
    ensures var r := Do(d, Stage(t, d, s));
            Inv(t, r) && r.esp == d.esp && Get(r, Current) == Get(d, Current) && Get(r, Fallback) == Get(d, Fallback)
  {
    StageLegal(t, d, s);
    LegalKeeps(t, d, Stage(t, d, s).ops);
    StageQuiet(t, d, s, {});
    QuietOpsKeep(t, d, Stage(t, d, s).ops, {});
  }

  /** A finished stage marks the image. */
  lemma {:induction false} StageMarks(t: Tools, d: Disk, s: Source)
    requires Stage(t, d, s).ok
    ensures NamedBy(Do(d, Stage(t, d, s)).roles, Staging, s.id)
  {
    var m := if HasCfs(d, s.id) then Plan([], true) else Materialize(t, d, s);
    SetRoleEffect(t, Do(d, m), Staging, s.id);
    RunConcat(d, m.ops, SetRole(Do(d, m), Staging, s.id));
  }

  /** A deploy that returns, of another image than the current one, has staged and promoted it. */
  lemma {:induction false} DeploySteps(t: Tools, d: Disk, s: Source)
    requires Inv(t, d) && SourceOk(t, s) && Get(d, Current) != Some(s.id) && Deploy(t, d, s).ok
    ensures var n := Do(d, Stage(t, d, s));
            Stage(t, d, s).ok && Staged(n, s.id).Some? && Do(d, Deploy(t, d, s)) == Do(n, Promote(t, n, s.id))
  {
    StageQuietly(t, d, s);
    RunConcat(d, Stage(t, d, s).ops, Promote(t, Do(d, Stage(t, d, s)), s.id).ops);
  }

  lemma {:induction false} DeployConsistent(t: Tools, d: Disk, s: Source)
    requires Consistent(t, d) && SourceOk(t, s)
    ensures Consistent(t, Do(d, Deploy(t, d, s)))
  {
    if Get(d, Current) != Some(s.id) {
      var p := Stage(t, d, s);
      var m := Do(d, p);
      StageConsistent(t, d, s, |p.ops|);
      assert p.ops[..|p.ops|] == p.ops;
      if p.ok {
        StageMarks(t, d, s);
        PromoteConsistent(t, m, s.id);
        RunConcat(d, p.ops, Promote(t, m, s.id).ops);
      }
    }
  }

  lemma {:induction false} MaterializeConsistent(t: Tools, d: Disk, s: Source, k: nat)
    requires Consistent(t, d) && SourceOk(t, s) && s.id !in d.dirs && k <= |Materialize(t, d, s).ops|
    ensures Consistent(t, Run(d, Materialize(t, d, s).ops[..k]))
    ensures var r := Do(d, Materialize(t, d, s));
            r.esp == d.esp && Get(r, Current) == Get(d, Current) && Get(r, Fallback) == Get(d, Fallback)
  {
    var ops := Materialize(t, d, s).ops;
    MaterializeEffect(t, d, s);
    MaterializeQuiet(t, d, s, BootIds(d));
    AlwaysQuiet(t, d, ops);
    QuietOpsKeep(t, d, ops, BootIds(d));
  }

  lemma {:induction false} InstalledEffect(t: Tools, m: Disk, image: Image)
    ensures var r := Run(m, CopyEsp(CurrentEfi, image) + SetRole(m, Current, image.id));
            && r.dirs == m.dirs && r.shared == m.shared && r.inodes == m.inodes && r.next == m.next
            && r.roles == m.roles[Current := image.id] && r.esp == (m.esp - {CurrentTmp})[CurrentEfi := image]
  {
    var n := Run(m, CopyEsp(CurrentEfi, image));
    CopyEspEffect(m, CurrentEfi, image);
    SetRoleEffect(t, n, Current, image.id);
    RunConcat(m, CopyEsp(CurrentEfi, image), SetRole(n, Current, image.id));
  }

  lemma {:induction false} InstalledAgree(t: Tools, m: Disk, r: Disk, image: Image)
    requires Agree(t, m) && r.dirs == m.dirs
    requires image.id in m.dirs && Complete(t, m.dirs[image.id], image.digest) && Get(m, Fallback) != Some(image.id)
    requires r.roles == m.roles[Current := image.id] && r.esp == (m.esp - {CurrentTmp})[CurrentEfi := image]
    ensures Agree(t, r)
  {
  }

  /** The last two steps of an installation, on a built deployment. */
  lemma {:induction false} InstalledConsistent(t: Tools, m: Disk, image: Image)
    requires Consistent(t, m) && image.id in m.dirs && Complete(t, m.dirs[image.id], image.digest)
    requires Get(m, Fallback) != Some(image.id)
    ensures Consistent(t, Run(m, CopyEsp(CurrentEfi, image) + SetRole(m, Current, image.id)))
  {
    var r := Run(m, CopyEsp(CurrentEfi, image) + SetRole(m, Current, image.id));
    InstalledEffect(t, m, image);
    InstalledAgree(t, m, r, image);
  }

  lemma {:induction false} InstallConsistent(t: Tools, d: Disk, s: Source)
    requires Consistent(t, d) && SourceOk(t, s)
    ensures Consistent(t, Do(d, Install(t, d, s)))
  {
    if s.id !in d.dirs {
      var p := Materialize(t, d, s);
      var m := Do(d, p);
      MaterializeConsistent(t, d, s, |p.ops|);
      assert p.ops[..|p.ops|] == p.ops;
      if p.ok {
        MaterializeEffect(t, d, s);
        InstalledConsistent(t, m, s.uki.value);
        RunConcat(d, p.ops, CopyEsp(CurrentEfi, s.uki.value) + SetRole(m, Current, s.id));
      }
    }
  }

  lemma {:induction false} GcConsistent(t: Tools, d: Disk, k: nat)
    requires Consistent(t, d) && k <= |Gc(t, d)|
    ensures Consistent(t, Run(d, Gc(t, d)[..k]))
  {
    GcLegal(t, d);
    GcQuiet(t, d, BootIds(d));
    AlwaysQuiet(t, d, Gc(t, d));
  }

  // ------------------------------------------------------------ whole runs

  predicate AllCalm(ops: seq<Op>) { forall op | op in ops :: !op.WriteEsp? }

  /** The command finished (by returning or by dying), or stopped before it wrote anything to the ESP. */
  predicate Clean(t: Tools, d: Disk, e: Event) {
    var ops := PlanOf(t, d, e.command).ops;
    e.stop >= |ops| || AllCalm(ops[..e.stop])
  }

  predicate CleanHistory(t: Tools, d: Disk, events: seq<Event>)
    decreases |events|
  {
    events == []
    || (Clean(t, d, events[0])
        && CleanHistory(t, Run(d, Until(PlanOf(t, d, events[0].command).ops, events[0].stop)), events[1..]))
  }

  lemma {:induction false} PastFirstWrite(a: seq<Op>, b: seq<Op>, k: nat)
    requires b != [] && b[0].WriteEsp? && |a| < k <= |a + b|
    ensures !AllCalm((a + b)[..k])
  {
    assert (a + b)[..k][|a|] == b[0];
    assert b[0] in (a + b)[..k];
  }

  /** A calm prefix of `a + b`, where `b` starts by writing to the ESP, is a prefix of `a`. */
  lemma {:induction false} CalmPrefix(a: seq<Op>, b: seq<Op>, k: nat)
    requires b != [] ==> b[0].WriteEsp?
    ensures k <= |a + b| && AllCalm((a + b)[..k]) ==> k <= |a| && (a + b)[..k] == a[..k]
  {
    if |a| < k <= |a + b| { PastFirstWrite(a, b, k); }
  }

  lemma {:induction false} CalmDeploy(t: Tools, d: Disk, s: Source, k: nat)
    requires Consistent(t, d) && SourceOk(t, s)
    requires k < |Deploy(t, d, s).ops| && AllCalm(Deploy(t, d, s).ops[..k])
    ensures Consistent(t, Run(d, Deploy(t, d, s).ops[..k]))
  {
    var p := Stage(t, d, s);
    if p.ok {
      var m := Do(d, p);
      StageQuietly(t, d, s);
      CalmPrefix(p.ops, Promote(t, m, s.id).ops, k);
    }
    StageConsistent(t, d, s, k);
  }

  lemma {:induction false} CalmInstall(t: Tools, d: Disk, s: Source, k: nat)
    requires Consistent(t, d) && SourceOk(t, s)
    requires k < |Install(t, d, s).ops| && AllCalm(Install(t, d, s).ops[..k])
    ensures Consistent(t, Run(d, Install(t, d, s).ops[..k]))
  {
    var m := Materialize(t, d, s);
    if m.ok { CalmPrefix(m.ops, CopyEsp(CurrentEfi, s.uki.value) + SetRole(Do(d, m), Current, s.id), k); }
    MaterializeConsistent(t, d, s, k);
  }

  lemma {:induction false} CalmCommand(t: Tools, d: Disk, c: Command, k: nat)
    requires Consistent(t, d) && CommandOk(t, c)
    requires k < |PlanOf(t, d, c).ops| && AllCalm(PlanOf(t, d, c).ops[..k])
    ensures Consistent(t, Run(d, PlanOf(t, d, c).ops[..k]))
  {
    match c
    case InstallCmd(s) => CalmInstall(t, d, s, k);
    case DeployCmd(s) => CalmDeploy(t, d, s, k);
    case GcCmd => GcConsistent(t, d, k);
    case RollbackCmd =>
      CalmPrefix([], Rollback(d).ops, k);
      assert [] + Rollback(d).ops == Rollback(d).ops;
  }

  lemma {:induction false} WholeCommand(t: Tools, d: Disk, c: Command)
    requires Consistent(t, d) && CommandOk(t, c)
    ensures Consistent(t, Do(d, PlanOf(t, d, c)))
  {
    match c
    case InstallCmd(s) => InstallConsistent(t, d, s);
    case DeployCmd(s) => DeployConsistent(t, d, s);
    case GcCmd =>
      GcConsistent(t, d, |Gc(t, d)|);
      assert Gc(t, d)[..|Gc(t, d)|] == Gc(t, d);
    case RollbackCmd => RollbackConsistent(t, d);
  }

  lemma {:induction false} CleanHistoryKeeps(t: Tools, d: Disk, events: seq<Event>)
    requires Consistent(t, d) && CleanHistory(t, d, events) && forall e | e in events :: CommandOk(t, e.command)
    ensures Consistent(t, History(t, d, events))
    decreases |events|
  {
    if events != [] {
      var e := events[0];
      var ops := PlanOf(t, d, e.command).ops;
      if e.stop >= |ops| {
        assert Until(ops, e.stop) == ops;
        WholeCommand(t, d, e.command);
      } else {
        CalmCommand(t, d, e.command, e.stop);
      }
      CleanHistoryKeeps(t, Run(d, Until(ops, e.stop)), events[1..]);
    }
  }

  /** ESP entry `f` and role `role` name the same deployment, held, complete and bootable. */
  ghost predicate Serviceable(t: Tools, d: Disk, role: Role, f: EspName) {
    && (role in d.roles <==> f in d.esp)
    && (role in d.roles ==> d.esp[f].id == d.roles[role] && ImageOk(t, d, d.esp[f]) && Boots(t, d, d.esp[f]))
  }

  /**
   Every run of installs, deploys, rollbacks and gcs from a blank disk, in any order, where each command
   finishes, dies, or stops before its first write to the ESP: the ESP's two entries are the two roles' images,
   the two are different, and each boots.
   */
  lemma {:induction false} CleanRunsBoot(t: Tools, events: seq<Event>)
    requires CleanHistory(t, BLANK, events) && forall e | e in events :: CommandOk(t, e.command)
    ensures var d := History(t, BLANK, events);
            && Serviceable(t, d, Current, CurrentEfi) && Serviceable(t, d, Fallback, FallbackEfi)
            && (Fallback in d.roles ==> Current in d.roles && d.roles[Current] != d.roles[Fallback])
  {
    CleanHistoryKeeps(t, BLANK, events);
    SafeBoots(t, History(t, BLANK, events));
  }

  // -------------------------------------------------- a crash in a deploy

  lemma {:induction false} AlwaysDeploy(t: Tools, d: Disk, s: Source)
    requires Consistent(t, d) && SourceOk(t, s)
    ensures Always(t, d, Deploy(t, d, s).ops)
  {
    if Get(d, Current) == Some(s.id) {
      AlwaysNothing(t, d);
    } else {
      var p := Stage(t, d, s);
      var m := Do(d, p);
      StageLegal(t, d, s);
      StageQuiet(t, d, s, BootIds(d));
      AlwaysQuiet(t, d, p.ops);
      if p.ok {
        StageConsistent(t, d, s, |p.ops|);
        assert p.ops[..|p.ops|] == p.ops;
        StageMarks(t, d, s);
        AlwaysPromote(t, m, s.id);
        AlwaysConcat(t, d, p.ops, Promote(t, m, s.id).ops);
      }
    }
  }

  /** A rename takes away no boot entry but by putting another in its place. */
  predicate KeepsEntries(op: Op) { op.RenameEsp? ==> op.source != CurrentEfi && op.source != FallbackEfi }

  predicate AllKeepEntries(ops: seq<Op>) { forall op | op in ops :: KeepsEntries(op) }

  lemma {:induction false} EntryStays(d: Disk, op: Op, f: EspName)
    requires KeepsEntries(op) && (f == CurrentEfi || f == FallbackEfi) && f in d.esp
    ensures f in Apply(d, op).esp
  {
  }

  lemma {:induction false} EntriesStay(d: Disk, ops: seq<Op>, f: EspName)
    requires AllKeepEntries(ops) && (f == CurrentEfi || f == FallbackEfi) && f in d.esp
    ensures f in Run(d, ops).esp
    decreases |ops|
  {
    if ops != [] {
      EntryStays(d, ops[0], f);
      EntriesStay(Apply(d, ops[0]), ops[1..], f);
    }
  }

  lemma {:induction false} FlipKeepsEntries(d: Disk, id: Id, image: Image)
    ensures AllKeepEntries(Flip(d, id, image))
  {
    assert AllKeepEntries(PromoteEsp(d, id, image)) && AllKeepEntries(PromoteRoles(d, id));
  }

  lemma {:induction false} PromoteKeepsEntries(t: Tools, d: Disk, id: Id)
    requires Inv(t, d)
    ensures AllKeepEntries(Promote(t, d, id).ops)
  {
    match Staged(d, id)
    case None =>
    case Some(image) =>
      FlipKeepsEntries(d, id, image);
      FlipLegal(t, d, id, image);
      GcRemoves(t, Run(d, Flip(d, id, image)));
  }

  lemma {:induction false} DeployKeepsEntries(t: Tools, d: Disk, s: Source)
    requires Inv(t, d) && SourceOk(t, s)
    ensures AllKeepEntries(Deploy(t, d, s).ops)
  {
    var p := Stage(t, d, s);
    StageQuiet(t, d, s, {});
    StageLegal(t, d, s);
    LegalKeeps(t, d, p.ops);
    PromoteKeepsEntries(t, Do(d, p), s.id);
  }

  /**
   A deploy stopped after any number of operations: the entries that were there are there, and both boot. A
   gc after the crash, itself stopped anywhere, does not change that.
   */
  lemma {:induction false} CrashedDeployBoots(t: Tools, d: Disk, s: Source, k: nat, j: nat)
    requires Consistent(t, d) && SourceOk(t, s) && k <= |Deploy(t, d, s).ops|
    requires j <= |Gc(t, Run(d, Deploy(t, d, s).ops[..k]))|
    ensures var m := Run(d, Deploy(t, d, s).ops[..k]);
            var r := Run(m, Gc(t, m)[..j]);
            && EspSafe(t, m) && EspBoots(t, m) && EspSafe(t, r) && EspBoots(t, r) && r.esp == m.esp
            && (CurrentEfi in d.esp ==> CurrentEfi in m.esp) && (FallbackEfi in d.esp ==> FallbackEfi in m.esp)
  {
    var ops := Deploy(t, d, s).ops;
    var m := Run(d, ops[..k]);
    AlwaysDeploy(t, d, s);
    DeployLegal(t, d, s);
    LegalPrefix(t, d, ops, k);
    LegalKeeps(t, d, ops[..k]);
    SafeBoots(t, m);
    DeployKeepsEntries(t, d, s);
    if CurrentEfi in d.esp { EntriesStay(d, ops[..k], CurrentEfi); }
    if FallbackEfi in d.esp { EntriesStay(d, ops[..k], FallbackEfi); }
    CrashedGcBoots(t, m, j);
  }

  lemma {:induction false} CrashedGcBoots(t: Tools, m: Disk, j: nat)
    requires Inv(t, m) && EspSafe(t, m) && j <= |Gc(t, m)|
    ensures var r := Run(m, Gc(t, m)[..j]);
            EspSafe(t, r) && EspBoots(t, r) && r.esp == m.esp
  {
    var gc := Gc(t, m);
    AlwaysGc(t, m);
    GcLegal(t, m);
    LegalPrefix(t, m, gc, j);
    LegalKeeps(t, m, gc[..j]);
    SafeBoots(t, Run(m, gc[..j]));
    GcRemoves(t, m);
    RemovalsKeepRoles(m, gc[..j]);
  }

  // ------------------------------------------ what a finished promotion leaves

  /** Of `d`, exactly the deployments `a` and `b` and the objects their holders contain are left. */
  ghost predicate LeavesTwo(d: Disk, r: Disk, a: Id, b: Id) {
    && a in d.dirs && b in d.dirs
    && r.dirs == map[a := d.dirs[a], b := d.dirs[b]]
    && (forall n :: n in r.shared <==>
          n in d.shared && n.Obj? && (n.digest in d.dirs[a].holder || n.digest in d.dirs[b].holder))
    && forall g | Obj(g) in r.shared :: ObjBytes(r, g) == ObjBytes(d, g)
  }

  lemma {:induction false} GcAfterFlip(t: Tools, d: Disk, e: Disk, id: Id)
    requires ToolsOk(t) && Inv(t, e)
    requires e.dirs == d.dirs && e.shared == d.shared && e.inodes == d.inodes && e.roles == Promoted(d.roles, id)
    requires Current in d.roles && id in d.dirs && d.roles[Current] in d.dirs
    ensures LeavesTwo(d, Run(e, Gc(t, e)), id, d.roles[Current])
  {
    var r := Run(e, Gc(t, e));
    var was := d.roles[Current];
    GcIsReachability(t, e);
    HeldAfterPromotion(d, e, id);
    forall n ensures n in r.shared <==>
                       n in d.shared && n.Obj? && (n.digest in d.dirs[id].holder || n.digest in d.dirs[was].holder)
    {
      assert n in r.shared <==> n in e.shared && n.Obj? && Reachable(e, n.digest);
    }
    forall g | Obj(g) in r.shared ensures ObjBytes(r, g) == ObjBytes(d, g) {
      assert ObjBytes(e, g) == ObjBytes(d, g);
    }
  }

  lemma {:induction false} Flipped(t: Tools, d: Disk, id: Id)
    requires Inv(t, d) && Staged(d, id).Some?
    ensures var e := Run(d, Flip(d, id, Staged(d, id).value));
            && Inv(t, e) && e.dirs == d.dirs && e.shared == d.shared && e.inodes == d.inodes
            && e.roles == Promoted(d.roles, id)
  {
    FlipEffect(t, d, id, Staged(d, id).value);
    FlipLegal(t, d, id, Staged(d, id).value);
  }

  lemma {:induction false} HeldAfterPromotion(d: Disk, e: Disk, id: Id)
    requires e.dirs == d.dirs && e.roles == Promoted(d.roles, id)
    requires Current in d.roles && id in d.dirs && d.roles[Current] in d.dirs
    ensures var was := d.roles[Current];
            && HeldDirs(e) == map[id := d.dirs[id], was := d.dirs[was]]
            && forall g :: Reachable(e, g) <==> g in d.dirs[id].holder || g in d.dirs[was].holder
  {
    var was := d.roles[Current];
    assert forall i :: RoleHeld(e.roles, i) <==> i == id || i == was;
    forall g ensures Reachable(e, g) <==> g in d.dirs[id].holder || g in d.dirs[was].holder {
      assert RoleHeld(e.roles, id) && RoleHeld(e.roles, was);
    }
  }

  lemma {:induction false} PromoteLeaves(t: Tools, d: Disk, id: Id)
    requires ToolsOk(t) && Inv(t, d) && Staged(d, id).Some?
    requires Current in d.roles && d.roles[Current] != id && d.roles[Current] in d.dirs
    ensures LeavesTwo(d, Do(d, Promote(t, d, id)), id, d.roles[Current])
  {
    Flipped(t, d, id);
    FlipThenGc(t, d, id);
    GcAfterFlip(t, d, Run(d, Flip(d, id, Staged(d, id).value)), id);
  }

  /**
   A finished promotion over an existing current, from a consistent state, leaves exactly two deployments, the
   new and the old current, and exactly the stored objects that one of the two holders contains, byte for
   byte: what goes is what the old fallback alone held.
   */
  lemma {:induction false} PromoteLeavesTwo(t: Tools, d: Disk, id: Id)
    requires ToolsOk(t) && Consistent(t, d) && Staged(d, id).Some?
    requires Current in d.roles && d.roles[Current] != id
    ensures LeavesTwo(d, Do(d, Promote(t, d, id)), id, d.roles[Current])
  {
    PromoteLeaves(t, d, id);
  }
}
