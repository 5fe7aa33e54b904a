/**
 The lifecycle commands (`zerith/lifecycle.py`, `zerith/installer.py`, with the primitives of
 `zerith/layout.py`) as plans over the disk, and the discipline each of them keeps.
 */
module Lifecycle {
  import opened Options
  import opened Orders
  import opened Pack
  import opened Filesystem
  import opened Objects
  import opened Transfer

  /** A resolved deployment artifact. */
  datatype Source = Source(id: Id, digest: Digest, uki: Option<Image>, cfs: Bytes, loader: Option<string>,
                           supply: Supply)

  /** CI bakes the id and the digest into the UKI, and supplies what is not inlined. */
  ghost predicate SourceOk(t: Tools, s: Source) {
    && PlainName(s.id)
    && (s.uki.Some? ==> s.uki.value == Image(s.id, s.digest))
    && SupplyOk(s.supply)
    && Needed(t, s.cfs) <= Supplied(s.supply)
  }

  // ------------------------------------------------------------- primitives

  function SetRole(d: Disk, role: Role, id: Id): (ops: seq<Op>) {
    (if role in d.roleTmps then [UnlinkRoleTmp(role)] else []) + [SymlinkRoleTmp(role, id), RenameRole(role)]
  }

  function ClearRole(d: Disk, role: Role): (ops: seq<Op>) {
    if role in d.roles then [UnlinkRole(role)] else []
  }

  function TmpOf(target: EspName): EspName {
    if target == CurrentEfi then CurrentTmp else FallbackTmp
  }

  /** `atomic_copy` onto the ESP. */
  function CopyEsp(target: EspName, image: Image): (ops: seq<Op>) {
    [WriteEsp(TmpOf(target), image), RenameEsp(TmpOf(target), target)]
  }

  // --------------------------------------------------------------- building

  /** Has the deployment's `root.cfs` been copied? */
  predicate HasCfs(d: Disk, id: Id) { id in d.dirs && d.dirs[id].cfs.Some? }

  function Finish(t: Tools, d: Disk, s: Source): (ops: seq<Op>)
    requires s.uki.Some?
  {
    LinkRefs(d, s.id, t.refs(s.cfs)) + [CopyUki(s.id, s.uki.value)]
    + (if s.loader.Some? then [CopyLoader(s.id, s.loader.value)] else [])
  }

  /** `_place_root_cfs`: copy, seal, measure. */
  function PlaceCfs(t: Tools, s: Source): (p: Plan) {
    Plan([CopyCfs(s.id, s.cfs), SealCfs(s.id)], t.measure(s.cfs) == s.digest)
  }

  function Build(t: Tools, d: Disk, s: Source): (p: Plan)
    requires s.uki.Some?
  {
    Then(PlaceCfs(t, s), Plan(Finish(t, Do(d, PlaceCfs(t, s)), s), true))
  }

  function Landed(t: Tools, d: Disk, s: Source): (p: Plan) {
    LandSupply(t, Apply(d, MkDir(s.id)), t.refs(s.cfs), s.supply)
  }

  /** `materialize`. */
  function Materialize(t: Tools, d: Disk, s: Source): (p: Plan) {
    if s.uki.None? then Plan([], false)
    else
      var m := Apply(d, MkDir(s.id));
      Then(Plan([MkDir(s.id)], true), Then(Landed(t, d, s), Build(t, Do(m, Landed(t, d, s)), s)))
  }

  /** `stage`: reuse a deployment already on disk, or build it; then mark it. */
  function Stage(t: Tools, d: Disk, s: Source): (p: Plan) {
    var m := if HasCfs(d, s.id) then Plan([], true) else Materialize(t, d, s);
    Then(m, Plan(SetRole(Do(d, m), Staging, s.id), true))
  }

  // ---------------------------------------------------------------------- gc

  predicate NamedBy(roles: map<Role, Id>, role: Role, id: Id) { role in roles && roles[role] == id }

  /** Some role link names the deployment. */
  predicate RoleHeld(roles: map<Role, Id>, id: Id) {
    NamedBy(roles, Current, id) || NamedBy(roles, Fallback, id) || NamedBy(roles, Staging, id)
  }

  /** `_collect_stale`: listed deployments no role names. */
  function Unheld(d: Disk, ids: seq<Id>): (stale: seq<Id>) {
    if ids == [] then []
    else
      var z := ids[|ids| - 1];
      Unheld(d, ids[..|ids| - 1]) + (if PlainName(z) && !RoleHeld(d.roles, z) then [z] else [])
  }

  function Stale(t: Tools, d: Disk): (stale: seq<Id>) {
    Unheld(d, Sort(t.readdir(d.dirs.Keys), StrLe))
  }

  function RmTrees(ids: seq<Id>): (ops: seq<Op>) {
    seq(|ids|, i requires 0 <= i < |ids| => RmTree(ids[i]))
  }

  function Gc(t: Tools, d: Disk): (ops: seq<Op>) {
    var rm := RmTrees(Stale(t, d));
    var m := Run(d, rm);
    rm + Sweep(m, t.walk(m.shared.Keys))
  }

  // ---------------------------------------------------------------- promote

  function Get(d: Disk, role: Role): (id: Option<Id>) {
    if role in d.roles then Some(d.roles[role]) else None
  }

  function Staged(d: Disk, id: Id): (image: Option<Image>) {
    if id in d.dirs then d.dirs[id].uki else None
  }

  /** The ESP half of a promotion: the fallback first, then current, then the loader. */
  function PromoteEsp(d: Disk, id: Id, image: Image): (ops: seq<Op>) {
    (if Current in d.roles && CurrentEfi in d.esp then CopyEsp(FallbackEfi, d.esp[CurrentEfi]) else [])
    + CopyEsp(CurrentEfi, image)
    + (if id in d.dirs && d.dirs[id].loader.Some? then [WriteLimine(d.dirs[id].loader.value), RenameLimine] else [])
  }

  /** The role half. */
  function PromoteRoles(d: Disk, id: Id): (ops: seq<Op>) {
    (if Current in d.roles then SetRole(d, Fallback, d.roles[Current]) else [])
    + SetRole(d, Current, id)
    + ClearRole(d, Staging)
  }

  function Flip(d: Disk, id: Id, image: Image): (ops: seq<Op>) {
    PromoteEsp(d, id, image) + PromoteRoles(d, id)
  }

  function Promote(t: Tools, d: Disk, id: Id): (p: Plan) {
    if Get(d, Current) == Some(id) then Plan(ClearRole(d, Staging), true)
    else match Staged(d, id)
      case None => Plan([], false)
      case Some(image) => Plan(Flip(d, id, image) + Gc(t, Run(d, Flip(d, id, image))), true)
  }

  /** `do_deploy`, after the artifact has been pulled. */
  function Deploy(t: Tools, d: Disk, s: Source): (p: Plan) {
    if Get(d, Current) == Some(s.id) then Plan([], true)
    else Then(Stage(t, d, s), Promote(t, Do(d, Stage(t, d, s)), s.id))
  }

  // ------------------------------------------------------- rollback, install

  function SwapEsp(d: Disk): (ops: seq<Op>) {
    if CurrentEfi in d.esp then
      [WriteEsp(SwapTmp, d.esp[CurrentEfi]), RenameEsp(FallbackEfi, CurrentEfi), RenameEsp(SwapTmp, FallbackEfi)]
    else []
  }

  function Rollback(d: Disk): (p: Plan) {
    if Fallback !in d.roles || FallbackEfi !in d.esp || CurrentEfi !in d.esp then Plan([], false)
    else Plan(SwapEsp(d) + SetRole(d, Current, d.roles[Fallback])
              + (if Current in d.roles then SetRole(d, Fallback, d.roles[Current]) else []), true)
  }

  function Install(t: Tools, d: Disk, s: Source): (p: Plan) {
    if s.id in d.dirs then Plan([], false)
    else
      var m := Materialize(t, d, s);
      var tail := if s.uki.Some? then CopyEsp(CurrentEfi, s.uki.value) + SetRole(Do(d, m), Current, s.id) else [];
      Then(m, Plan(tail, true))
  }

  datatype Command = InstallCmd(source: Source) | DeployCmd(source: Source) | RollbackCmd | GcCmd

  function PlanOf(t: Tools, d: Disk, c: Command): (p: Plan) {
    match c
    case InstallCmd(s) => Install(t, d, s)
    case DeployCmd(s) => Deploy(t, d, s)
    case RollbackCmd => Rollback(d)
    case GcCmd => Plan(Gc(t, d), true)
  }

  ghost predicate CommandOk(t: Tools, c: Command) {
    (c.InstallCmd? || c.DeployCmd?) ==> SourceOk(t, c.source)
  }

  // ------------------------------------------------ every command is disciplined

  /** Operations on roles, the ESP and whole directories. */
  predicate FreeOp(op: Op) {
    op.UnlinkRoleTmp? || op.SymlinkRoleTmp? || op.RenameRole? || op.UnlinkRole?
    || op.WriteEsp? || op.RenameEsp? || op.WriteLimine? || op.RenameLimine? || op.RmTree?
  }

  predicate AllFree(ops: seq<Op>) { forall op | op in ops :: FreeOp(op) }

  lemma {:induction false} FlipFree(d: Disk, id: Id, image: Image)
    ensures AllFree(PromoteEsp(d, id, image)) && AllFree(PromoteRoles(d, id)) && AllFree(Flip(d, id, image))
  {
    assert AllFree(PromoteEsp(d, id, image));
    assert AllFree(SetRole(d, Current, id)) && AllFree(ClearRole(d, Staging));
    assert AllFree(PromoteRoles(d, id));
  }

  lemma {:induction false} RmTreesLegal(t: Tools, d: Disk, ops: seq<Op>)
    requires forall op | op in ops :: op.RmTree?
    ensures Legal(t, d, ops)
    decreases |ops|
  {
    if ops != [] {
      assert ops[0].RmTree?;
      RmTreesLegal(t, Apply(d, ops[0]), ops[1..]);
    }
  }

  lemma {:induction false} LandedEffect(t: Tools, d: Disk, s: Source)
    requires Inv(t, d) && SourceOk(t, s) && !HasCfs(d, s.id)
    ensures var m := Apply(d, MkDir(s.id));
            var l := Landed(t, d, s);
            && Inv(t, m) && Legal(t, m, l.ops) && AllStoreOps(l.ops) && Inv(t, Do(m, l)) && SameHost(m, Do(m, l))
            && m.dirs == d.dirs[s.id := EMPTY_DIR]
            && (l.ok ==> forall g | g in Needed(t, s.cfs) :: Obj(g) in Do(m, l).shared)
  {
    var m := Apply(d, MkDir(s.id));
    ApplyKeeps(t, d, MkDir(s.id));
    assert s.id in d.dirs ==> Committed(t, s.id, d.dirs[s.id]);
    assert m.dirs == d.dirs[s.id := EMPTY_DIR];
    var l := Landed(t, d, s);
    LandSupplyLegal(t, m, t.refs(s.cfs), s.supply);
    LegalKeeps(t, m, l.ops);
    StoreOpsExtend(t, m, l.ops);
    if l.ok { LandingProvides(t, m, t.refs(s.cfs), s.supply); }
  }

  lemma {:induction false} PlaceCfsEffect(t: Tools, d: Disk, s: Source)
    requires Inv(t, d) && s.id in d.dirs && d.dirs[s.id] == EMPTY_DIR
    ensures var r := Do(d, PlaceCfs(t, s));
            && Legal(t, d, PlaceCfs(t, s).ops) && Inv(t, r)
            && r == d.(dirs := d.dirs[s.id := Dir(Some(s.cfs), true, map[], None, None)])
  {
    var a, b := CopyCfs(s.id, s.cfs), SealCfs(s.id);
    Legal2(t, d, a, b);
    LegalKeeps(t, d, [a, b]);
    assert Apply(Apply(d, a), b).dirs == d.dirs[s.id := Dir(Some(s.cfs), true, map[], None, None)];
  }

  /** After the holder is full, the UKI may be copied: the directory is complete. */
  lemma {:induction false} FinishEffect(t: Tools, d: Disk, s: Source)
    requires Inv(t, d) && s.uki == Some(Image(s.id, s.digest)) && t.measure(s.cfs) == s.digest
    requires s.id in d.dirs && d.dirs[s.id] == Dir(Some(s.cfs), true, map[], None, None)
    requires forall g | g in Needed(t, s.cfs) :: Obj(g) in d.shared
    ensures var ops := Finish(t, d, s);
            var r := Run(d, ops);
            && Legal(t, d, ops) && s.id in r.dirs
            && r.dirs[s.id].uki == s.uki && Complete(t, r.dirs[s.id], s.digest)
            && r.dirs[s.id].loader == s.loader && r.dirs[s.id].cfs == Some(s.cfs)
  {
    var refs := t.refs(s.cfs);
    var links := LinkRefs(d, s.id, refs);
    var m := Run(d, links);
    LinkRefsEffect(t, d, s.id, refs);
    assert Complete(t, m.dirs[s.id], s.digest);
    var u := [CopyUki(s.id, s.uki.value)];
    Legal1(t, m, u[0]);
    var n := Run(m, u);
    LegalConcat(t, d, links, u);
    RunConcat(d, links, u);
    var l: seq<Op> := if s.loader.Some? then [CopyLoader(s.id, s.loader.value)] else [];
    if s.loader.Some? { Legal1(t, n, l[0]); }
    LegalConcat(t, d, links + u, l);
    RunConcat(d, links + u, l);
  }

  lemma {:induction false} BuildEffect(t: Tools, d: Disk, s: Source)
    requires Inv(t, d) && s.uki == Some(Image(s.id, s.digest))
    requires s.id in d.dirs && d.dirs[s.id] == EMPTY_DIR
    requires forall g | g in Needed(t, s.cfs) :: Obj(g) in d.shared
    ensures var p := Build(t, d, s);
            && Legal(t, d, p.ops)
            && (p.ok ==> s.id in Do(d, p).dirs && Do(d, p).dirs[s.id].uki == s.uki
                         && Do(d, p).dirs[s.id].cfs == Some(s.cfs) && Complete(t, Do(d, p).dirs[s.id], s.digest))
  {
    PlaceCfsEffect(t, d, s);
    var m := Do(d, PlaceCfs(t, s));
    if t.measure(s.cfs) == s.digest {
      FinishEffect(t, m, s);
      ThenLegal(t, d, PlaceCfs(t, s), Plan(Finish(t, m, s), true));
    }
  }

  /** `materialize` keeps the discipline; when it returns, the deployment is complete and has its UKI. */
  lemma {:induction false} MaterializeEffect(t: Tools, d: Disk, s: Source)
    requires Inv(t, d) && SourceOk(t, s) && !HasCfs(d, s.id)
    ensures var p := Materialize(t, d, s);
            && Legal(t, d, p.ops)
            && (p.ok ==> s.uki == Some(Image(s.id, s.digest))
                         && s.id in Do(d, p).dirs && Do(d, p).dirs[s.id].uki == s.uki
                         && Do(d, p).dirs[s.id].cfs == Some(s.cfs) && Complete(t, Do(d, p).dirs[s.id], s.digest))
  {
    if s.uki.Some? {
      var m := Apply(d, MkDir(s.id));
      var l := Landed(t, d, s);
      var n := Do(m, l);
      LandedEffect(t, d, s);
      Legal1(t, d, MkDir(s.id));
      if l.ok { BuildEffect(t, n, s); }
      ThenLegal(t, m, l, Build(t, n, s));
      ThenLegal(t, d, Plan([MkDir(s.id)], true), Then(l, Build(t, n, s)));
    }
  }

  lemma {:induction false} BuildCopiesLoader(t: Tools, d: Disk, s: Source)
    requires Inv(t, d) && s.uki == Some(Image(s.id, s.digest)) && Build(t, d, s).ok
    requires s.id in d.dirs && d.dirs[s.id] == EMPTY_DIR
    requires forall g | g in Needed(t, s.cfs) :: Obj(g) in d.shared
    ensures var r := Do(d, Build(t, d, s));
            s.id in r.dirs && r.dirs[s.id].loader == s.loader
  {
    var m := Do(d, PlaceCfs(t, s));
    PlaceCfsEffect(t, d, s);
    FinishEffect(t, m, s);
    RunConcat(d, PlaceCfs(t, s).ops, Finish(t, m, s));
  }

  /** A finished build has the loader the artifact brings, or none. */
  lemma {:induction false} MaterializeCopiesLoader(t: Tools, d: Disk, s: Source)
    requires Inv(t, d) && SourceOk(t, s) && !HasCfs(d, s.id) && Materialize(t, d, s).ok
    ensures var r := Do(d, Materialize(t, d, s));
            s.id in r.dirs && r.dirs[s.id].loader == s.loader
  {
    var m := Apply(d, MkDir(s.id));
    var l := Landed(t, d, s);
    var n := Do(m, l);
    LandedEffect(t, d, s);
    BuildCopiesLoader(t, n, s);
    RunConcat(d, [MkDir(s.id)], l.ops + Build(t, n, s).ops);
    RunOne(d, MkDir(s.id));
    RunConcat(m, l.ops, Build(t, n, s).ops);
  }

  lemma {:induction false} SwitchRole(t: Tools, d: Disk, role: Role, id: Id)
    requires role !in d.roleTmps
    ensures Legal(t, d, [SymlinkRoleTmp(role, id), RenameRole(role)])
    ensures Run(d, [SymlinkRoleTmp(role, id), RenameRole(role)])
         == d.(roles := d.roles[role := id], roleTmps := d.roleTmps - {role})
  {
    var a, b := SymlinkRoleTmp(role, id), RenameRole(role);
    Legal2(t, d, a, b);
    assert d.roleTmps[role := id] - {role} == d.roleTmps - {role};
  }

  /** `set_role` never finds a link in the way, whatever temporaries there are. */
  lemma {:induction false} SetRoleEffect(t: Tools, d: Disk, role: Role, id: Id)
    ensures Legal(t, d, SetRole(d, role, id))
    ensures Run(d, SetRole(d, role, id)) == d.(roles := d.roles[role := id], roleTmps := d.roleTmps - {role})
  {
    var tail := [SymlinkRoleTmp(role, id), RenameRole(role)];
    if role in d.roleTmps {
      var u := UnlinkRoleTmp(role);
      var m := Apply(d, u);
      assert ([u] + tail)[1..] == tail;
      SwitchRole(t, m, role, id);
      assert m.roleTmps - {role} == d.roleTmps - {role};
    } else {
      assert [] + tail == tail;
      SwitchRole(t, d, role, id);
    }
  }

  /** The loader is refreshed over whatever temporary there is. */
  lemma {:induction false} LoaderLegal(t: Tools, d: Disk, loader: string)
    ensures Legal(t, d, [WriteLimine(loader), RenameLimine])
  {
    Legal2(t, d, WriteLimine(loader), RenameLimine);
  }

  /** And so is a boot entry. */
  lemma {:induction false} CopyEspLegal(t: Tools, d: Disk, target: EspName, image: Image)
    ensures Legal(t, d, CopyEsp(target, image))
  {
    Legal2(t, d, WriteEsp(TmpOf(target), image), RenameEsp(TmpOf(target), target));
  }

  predicate EspOp(op: Op) { op.WriteEsp? || op.RenameEsp? || op.WriteLimine? || op.RenameLimine? }

  ghost predicate SameRolesAndDirs(d: Disk, r: Disk) {
    r.roles == d.roles && r.roleTmps == d.roleTmps && r.dirs == d.dirs
  }

  lemma {:induction false} EspOpFrame(d: Disk, op: Op)
    requires EspOp(op)
    ensures SameRolesAndDirs(d, Apply(d, op))
  {
    match op
    case WriteEsp(_, _) =>
    case RenameEsp(_, _) =>
    case WriteLimine(_) =>
    case RenameLimine =>
  }

  lemma {:induction false} EspOpsFrame(d: Disk, ops: seq<Op>)
    requires forall op | op in ops :: EspOp(op)
    ensures SameRolesAndDirs(d, Run(d, ops))
    decreases |ops|
  {
    if ops != [] {
      EspOpFrame(d, ops[0]);
      EspOpsFrame(Apply(d, ops[0]), ops[1..]);
    }
  }

  lemma {:induction false} PromoteEspLegal(t: Tools, d: Disk, id: Id, image: Image)
    ensures Legal(t, d, PromoteEsp(d, id, image))
  {
    var a: seq<Op> := if Current in d.roles && CurrentEfi in d.esp then CopyEsp(FallbackEfi, d.esp[CurrentEfi]) else [];
    var b := CopyEsp(CurrentEfi, image);
    var c: seq<Op> :=
      if id in d.dirs && d.dirs[id].loader.Some? then [WriteLimine(d.dirs[id].loader.value), RenameLimine] else [];
    if a != [] { CopyEspLegal(t, d, FallbackEfi, d.esp[CurrentEfi]); }
    CopyEspLegal(t, Run(d, a), CurrentEfi, image);
    if c != [] { LoaderLegal(t, Run(d, a + b), d.dirs[id].loader.value); }
    LegalConcat(t, d, a, b);
    LegalConcat(t, d, a + b, c);
  }

  lemma {:induction false} ClearRoleLegal(t: Tools, d: Disk, role: Role)
    ensures Legal(t, d, ClearRole(d, role))
  {
    if role in d.roles { Legal1(t, d, UnlinkRole(role)); }
  }

  lemma {:induction false} PromoteRolesLegal(t: Tools, d: Disk, id: Id)
    ensures Legal(t, d, PromoteRoles(d, id))
  {
    var a: seq<Op> := if Current in d.roles then SetRole(d, Fallback, d.roles[Current]) else [];
    var b, c := SetRole(d, Current, id), ClearRole(d, Staging);
    var m := Run(d, a);
    if a != [] { SetRoleEffect(t, d, Fallback, d.roles[Current]); }
    assert SetRole(m, Current, id) == b;
    SetRoleEffect(t, m, Current, id);
    LegalConcat(t, d, a, b);
    RunConcat(d, a, b);
    assert ClearRole(Run(d, a + b), Staging) == c;
    ClearRoleLegal(t, Run(d, a + b), Staging);
    LegalConcat(t, d, a + b, c);
  }

  /** Nothing in a flip fails, wherever the last one was interrupted. */
  lemma {:induction false} FlipSucceeds(t: Tools, d: Disk, id: Id, image: Image)
    ensures Legal(t, d, Flip(d, id, image))
  {
    var e := Run(d, PromoteEsp(d, id, image));
    PromoteEspLegal(t, d, id, image);
    EspOpsFrame(d, PromoteEsp(d, id, image));
    assert PromoteRoles(e, id) == PromoteRoles(d, id);
    PromoteRolesLegal(t, e, id);
    LegalConcat(t, d, PromoteEsp(d, id, image), PromoteRoles(d, id));
  }

  lemma {:induction false} SwapLegal(t: Tools, d: Disk)
    requires CurrentEfi in d.esp && FallbackEfi in d.esp
    ensures Legal(t, d, SwapEsp(d))
  {
    var a, b := WriteEsp(SwapTmp, d.esp[CurrentEfi]), RenameEsp(FallbackEfi, CurrentEfi);
    var c := RenameEsp(SwapTmp, FallbackEfi);
    Legal2(t, d, a, b);
    Legal1(t, Apply(Apply(d, a), b), c);
    assert SwapEsp(d) == [a, b] + [c];
    LegalConcat(t, d, [a, b], [c]);
  }

  /** Nor does anything in a rollback that has begun. */
  lemma {:induction false} RollbackLegal(t: Tools, d: Disk)
    ensures Legal(t, d, Rollback(d).ops)
  {
    if Rollback(d).ok {
      var m := Run(d, SwapEsp(d));
      var one := SetRole(d, Current, d.roles[Fallback]);
      var two := if Current in d.roles then SetRole(d, Fallback, d.roles[Current]) else [];
      SwapLegal(t, d);
      EspOpsFrame(d, SwapEsp(d));
      assert one == SetRole(m, Current, d.roles[Fallback]);
      SetRoleEffect(t, m, Current, d.roles[Fallback]);
      LegalConcat(t, d, SwapEsp(d), one);
      RunConcat(d, SwapEsp(d), one);
      if two != [] {
        assert two == SetRole(Run(m, one), Fallback, d.roles[Current]);
        SetRoleEffect(t, Run(m, one), Fallback, d.roles[Current]);
      }
      LegalConcat(t, d, SwapEsp(d) + one, two);
    }
  }

  lemma {:induction false} StageLegal(t: Tools, d: Disk, s: Source)
    requires Inv(t, d) && SourceOk(t, s)
    ensures Legal(t, d, Stage(t, d, s).ops)
  {
    var m := if HasCfs(d, s.id) then Plan([], true) else Materialize(t, d, s);
    if !HasCfs(d, s.id) { MaterializeEffect(t, d, s); }
    SetRoleEffect(t, Do(d, m), Staging, s.id);
    ThenLegal(t, d, m, Plan(SetRole(Do(d, m), Staging, s.id), true));
  }

  lemma {:induction false} GcLegal(t: Tools, d: Disk)
    requires Inv(t, d)
    ensures Legal(t, d, Gc(t, d)) && Inv(t, Run(d, RmTrees(Stale(t, d))))
  {
    var rm := RmTrees(Stale(t, d));
    var m := Run(d, rm);
    RmTreesLegal(t, d, rm);
    LegalKeeps(t, d, rm);
    SweepEffect(t, m, t.walk(m.shared.Keys));
    LegalConcat(t, d, rm, Sweep(m, t.walk(m.shared.Keys)));
  }

  lemma {:induction false} PromoteLegal(t: Tools, d: Disk, id: Id)
    requires Inv(t, d)
    ensures Legal(t, d, Promote(t, d, id).ops)
  {
    match Staged(d, id)
    case None => ClearRoleLegal(t, d, Staging);
    case Some(image) =>
      ClearRoleLegal(t, d, Staging);
      var flip := Flip(d, id, image);
      FlipSucceeds(t, d, id, image);
      LegalKeeps(t, d, flip);
      GcLegal(t, Run(d, flip));
      LegalConcat(t, d, flip, Gc(t, Run(d, flip)));
  }

  lemma {:induction false} MaterializeLegal(t: Tools, d: Disk, s: Source)
    requires Inv(t, d) && SourceOk(t, s) && !HasCfs(d, s.id)
    ensures Legal(t, d, Materialize(t, d, s).ops)
  {
    MaterializeEffect(t, d, s);
  }

  lemma {:induction false} InstallLegal(t: Tools, d: Disk, s: Source)
    requires Inv(t, d) && SourceOk(t, s)
    ensures Legal(t, d, Install(t, d, s).ops)
  {
    if s.id !in d.dirs {
      var m := Materialize(t, d, s);
      MaterializeLegal(t, d, s);
      var tail := if s.uki.Some? then CopyEsp(CurrentEfi, s.uki.value) + SetRole(Do(d, m), Current, s.id) else [];
      if s.uki.Some? {
        var n := Do(d, m);
        var copy, link := CopyEsp(CurrentEfi, s.uki.value), SetRole(n, Current, s.id);
        CopyEspLegal(t, n, CurrentEfi, s.uki.value);
        EspOpsFrame(n, copy);
        assert SetRole(Run(n, copy), Current, s.id) == link;
        SetRoleEffect(t, Run(n, copy), Current, s.id);
        LegalConcat(t, n, copy, link);
      }
      ThenLegal(t, d, m, Plan(tail, true));
    }
  }

  lemma {:induction false} ThenPromoteLegal(t: Tools, d: Disk, p: Plan, id: Id)
    requires Inv(t, d) && Legal(t, d, p.ops)
    ensures Legal(t, d, Then(p, Promote(t, Do(d, p), id)).ops)
  {
    LegalKeeps(t, d, p.ops);
    PromoteLegal(t, Do(d, p), id);
    LegalConcat(t, d, p.ops, Promote(t, Do(d, p), id).ops);
  }

  lemma {:induction false} DeployLegal(t: Tools, d: Disk, s: Source)
    requires Inv(t, d) && SourceOk(t, s)
    ensures Legal(t, d, Deploy(t, d, s).ops)
  {
    StageLegal(t, d, s);
    ThenPromoteLegal(t, d, Stage(t, d, s), s.id);
  }

  /** Every command keeps the discipline from every disk that satisfies the invariant. */
  lemma {:induction false} CommandLegal(t: Tools, d: Disk, c: Command)
    requires Inv(t, d) && CommandOk(t, c)
    ensures Legal(t, d, PlanOf(t, d, c).ops)
  {
    match c
    case InstallCmd(s) => InstallLegal(t, d, s);
    case DeployCmd(s) => DeployLegal(t, d, s);
    case RollbackCmd => RollbackLegal(t, d);
    case GcCmd => GcLegal(t, d);
  }

  // -------------------------------------------------------- over whole runs

  /** A command, and how many of its operations were carried out before it stopped. */
  datatype Event = Event(command: Command, stop: nat)

  function Until(ops: seq<Op>, k: nat): (r: seq<Op>) { if k <= |ops| then ops[..k] else ops }

  /** A history of commands, each stopped anywhere: by a crash, a kill, a failing tool, or not at all. */
  function History(t: Tools, d: Disk, events: seq<Event>): (r: Disk)
    decreases |events|
  {
    if events == [] then d
    else
      var e := events[0];
      History(t, Run(d, Until(PlanOf(t, d, e.command).ops, e.stop)), events[1..])
  }

  lemma {:induction false} HistoryAppend(t: Tools, d: Disk, events: seq<Event>, e: Event)
    ensures var h := History(t, d, events);
            History(t, d, events + [e]) == Run(h, Until(PlanOf(t, h, e.command).ops, e.stop))
    decreases |events|
  {
    if events == [] {
      assert [] + [e] == [e] && [e][1..] == [];
    } else {
      assert (events + [e])[1..] == events[1..] + [e];
      HistoryAppend(t, Run(d, Until(PlanOf(t, d, events[0].command).ops, events[0].stop)), events[1..], e);
    }
  }

  const BLANK := Disk(map[], map[], map[], None, None, map[], map[], map[], 0)

  lemma {:induction false} HistoryKeeps(t: Tools, d: Disk, events: seq<Event>)
    requires Inv(t, d) && forall e | e in events :: CommandOk(t, e.command)
    ensures Inv(t, History(t, d, events))
    decreases |events|
  {
    if events != [] {
      var e := events[0];
      var ops := PlanOf(t, d, e.command).ops;
      CommandLegal(t, d, e.command);
      if e.stop <= |ops| { LegalPrefix(t, d, ops, e.stop); }
      LegalKeeps(t, d, Until(ops, e.stop));
      HistoryKeeps(t, Run(d, Until(ops, e.stop)), events[1..]);
    }
  }

  /**
   Over every history of interrupted commands from a blank disk: link counts are one plus the number of
   holders, every object measures to its name, and a directory that has a UKI has a sealed `root.cfs` of the
   UKI's digest and links to every object it needs. So `promote`, which insists on the UKI, never installs a
   half-built deployment.
   */
  lemma {:induction false} UkiIsCommitMarker(t: Tools, events: seq<Event>, id: Id)
    requires forall e | e in events :: CommandOk(t, e.command)
    ensures var d := History(t, BLANK, events);
            && Inv(t, d)
            && (Staged(d, id).Some? ==>
                  var image := Staged(d, id).value;
                  && image.id == id && Complete(t, d.dirs[id], image.digest)
                  && forall g | g in Needed(t, d.dirs[id].cfs.value) ::
                       Obj(g) in d.shared && t.measure(ObjBytes(d, g)) == g
                       && d.inodes[d.shared[Obj(g)]].links >= 2)
  {
    HistoryKeeps(t, BLANK, events);
    var d := History(t, BLANK, events);
    if Staged(d, id).Some? {
      assert Committed(t, id, d.dirs[id]);
      forall g | g in Needed(t, d.dirs[id].cfs.value)
        ensures Obj(g) in d.shared && t.measure(ObjBytes(d, g)) == g && d.inodes[d.shared[Obj(g)]].links >= 2
      {
        assert g in d.dirs[id].holder;
        assert id in Holders(d.dirs, g);
      }
    }
  }
}
