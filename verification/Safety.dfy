/**
 What the lifecycle is for: at every moment the firmware finds an image it can boot. Boot reads the ESP, gc
 reads the roles, objects live by link counts; the order of the operations keeps the three in step.
 */
module Safety {
  import opened Options
  import opened Orders
  import opened Filesystem
  import opened Objects
  import opened Lifecycle

  // ---------------------------------------------------------------- bootable

  /** An image on the ESP whose deployment is held by a role and complete. */
  ghost predicate ImageOk(t: Tools, d: Disk, image: Image) {
    RoleHeld(d.roles, image.id) && image.id in d.dirs && Complete(t, d.dirs[image.id], image.digest)
  }

  ghost predicate FileOk(t: Tools, d: Disk, f: EspName) { f in d.esp ==> ImageOk(t, d, d.esp[f]) }

  /** Each UKI the boot menu offers names a complete deployment that gc will not collect. */
  ghost predicate EspSafe(t: Tools, d: Disk) { FileOk(t, d, CurrentEfi) && FileOk(t, d, FallbackEfi) }

  /**
   What the initramfs demands of the command line, but for the objects' own seals: the named `root.cfs`
   sealed with the pinned digest, and every object it needs in the store with the content of its name.
   */
  ghost predicate Boots(t: Tools, d: Disk, image: Image) {
    && HasCfs(d, image.id) && d.dirs[image.id].sealed
    && t.measure(d.dirs[image.id].cfs.value) == image.digest
    && forall g | g in Needed(t, d.dirs[image.id].cfs.value) ::
         Obj(g) in d.shared && t.measure(ObjBytes(d, g)) == g
  }

  ghost predicate EspBoots(t: Tools, d: Disk) {
    && (CurrentEfi in d.esp ==> Boots(t, d, d.esp[CurrentEfi]))
    && (FallbackEfi in d.esp ==> Boots(t, d, d.esp[FallbackEfi]))
  }

  lemma {:induction false} SafeBoots(t: Tools, d: Disk)
    requires Inv(t, d) && EspSafe(t, d)
    ensures EspBoots(t, d)
  {
    forall f | f in d.esp && ImageOk(t, d, d.esp[f]) ensures Boots(t, d, d.esp[f]) {
    }
  }

  // --------------------------------------------------- quiet operations

  /** Operations that write neither the ESP nor the two boot roles, and remove none of `keep`. */
  predicate Quiet(op: Op, keep: set<Id>) {
    && !op.WriteEsp? && !op.RenameEsp? && !op.WriteLimine? && !op.RenameLimine?
    && ((op.RenameRole? || op.UnlinkRole?) ==> op.role == Staging)
    && (op.RmTree? ==> op.id !in keep)
  }

  predicate AllQuiet(ops: seq<Op>, keep: set<Id>) { forall op | op in ops :: Quiet(op, keep) }

  /** Quiet, and no role link is touched at all. */
  predicate Still(op: Op, keep: set<Id>) { Quiet(op, keep) && !op.RenameRole? && !op.UnlinkRole? }

  predicate AllStill(ops: seq<Op>, keep: set<Id>) { forall op | op in ops :: Still(op, keep) }

  lemma {:induction false} StillKeepsRoles(d: Disk, ops: seq<Op>, keep: set<Id>)
    requires AllStill(ops, keep)
    ensures Run(d, ops).roles == d.roles
    decreases |ops|
  {
    if ops != [] {
      assert Still(ops[0], keep);
      RoleFrame(d, ops[0]);
      StillKeepsRoles(Apply(d, ops[0]), ops[1..], keep);
    }
  }

  ghost predicate SameRole(d: Disk, r: Disk, role: Role) { Get(r, role) == Get(d, role) }

  /** The boot-relevant part is as it was, and the deployments of `keep` are still complete. */
  ghost predicate BootKept(t: Tools, d: Disk, r: Disk, keep: set<Id>) {
    && r.esp == d.esp && SameRole(d, r, Current) && SameRole(d, r, Fallback)
    && forall id, g | id in keep && id in d.dirs && Complete(t, d.dirs[id], g) ::
         id in r.dirs && Complete(t, r.dirs[id], g)
  }

  lemma {:induction false} OpKeepsComplete(t: Tools, d: Disk, op: Op, id: Id, g: Digest)
    requires Permits(t, d, op) && (op.RmTree? ==> op.id != id)
    requires id in d.dirs && Complete(t, d.dirs[id], g)
    ensures id in Apply(d, op).dirs && Complete(t, Apply(d, op).dirs[id], g)
  {
  }

  lemma {:induction false} QuietOpKeeps(t: Tools, d: Disk, op: Op, keep: set<Id>)
    requires Permits(t, d, op) && Quiet(op, keep)
    ensures BootKept(t, d, Apply(d, op), keep)
  {
    EspFrame(d, op);
    if !op.RenameRole? && !op.UnlinkRole? { RoleFrame(d, op); }
    forall id, g | id in keep && id in d.dirs && Complete(t, d.dirs[id], g)
      ensures id in Apply(d, op).dirs && Complete(t, Apply(d, op).dirs[id], g)
    {
      OpKeepsComplete(t, d, op, id, g);
    }
  }

  lemma {:induction false} QuietOpsKeep(t: Tools, d: Disk, ops: seq<Op>, keep: set<Id>)
    requires Legal(t, d, ops) && AllQuiet(ops, keep)
    ensures BootKept(t, d, Run(d, ops), keep)
    decreases |ops|
  {
    if ops != [] {
      assert Quiet(ops[0], keep);
      QuietOpKeeps(t, d, ops[0], keep);
      QuietOpsKeep(t, Apply(d, ops[0]), ops[1..], keep);
    }
  }

  lemma {:induction false} StageQuiet(t: Tools, d: Disk, s: Source, keep: set<Id>)
    requires Inv(t, d) && SourceOk(t, s)
    ensures AllQuiet(Stage(t, d, s).ops, keep)
    ensures !HasCfs(d, s.id) ==> AllStill(Materialize(t, d, s).ops, keep)
  {
    if !HasCfs(d, s.id) { MaterializeQuiet(t, d, s, keep); }
  }

  lemma {:induction false} StoreOpsQuiet(ops: seq<Op>, keep: set<Id>)
    requires AllStoreOps(ops)
    ensures AllStill(ops, keep)
  {
  }

  lemma {:induction false} FinishQuiet(t: Tools, d: Disk, s: Source, keep: set<Id>)
    requires Inv(t, d) && s.uki.Some? && HasCfs(d, s.id)
    ensures AllStill(Finish(t, d, s), keep)
  {
    LinkRefsLegal(t, d, s.id, t.refs(s.cfs));
  }

  lemma {:induction false} BuildQuiet(t: Tools, d: Disk, s: Source, keep: set<Id>)
    requires Inv(t, d) && s.uki.Some? && s.id in d.dirs && d.dirs[s.id] == EMPTY_DIR
    ensures AllStill(Build(t, d, s).ops, keep)
  {
    PlaceCfsEffect(t, d, s);
    FinishQuiet(t, Do(d, PlaceCfs(t, s)), s, keep);
  }

  lemma {:induction false} LandedQuiet(t: Tools, d: Disk, s: Source, keep: set<Id>)
    requires Inv(t, d) && SourceOk(t, s) && !HasCfs(d, s.id)
    ensures AllStill(Landed(t, d, s).ops, keep)
    ensures var n := Do(Apply(d, MkDir(s.id)), Landed(t, d, s));
            Inv(t, n) && s.id in n.dirs && n.dirs[s.id] == EMPTY_DIR
  {
    LandedEffect(t, d, s);
    StoreOpsQuiet(Landed(t, d, s).ops, keep);
  }

  lemma {:induction false} MaterializeQuiet(t: Tools, d: Disk, s: Source, keep: set<Id>)
    requires Inv(t, d) && SourceOk(t, s) && !HasCfs(d, s.id)
    ensures AllStill(Materialize(t, d, s).ops, keep)
  {
    if s.uki.Some? {
      var l := Landed(t, d, s);
      var n := Do(Apply(d, MkDir(s.id)), l);
      LandedQuiet(t, d, s, keep);
      BuildQuiet(t, n, s, keep);
    }
  }

  // ---------------------------------------------------------------------- gc

  lemma {:induction false} UnheldMembers(d: Disk, ids: seq<Id>, z: Id)
    ensures z in Unheld(d, ids) <==> z in ids && PlainName(z) && !RoleHeld(d.roles, z)
  {
    if ids != [] {
      UnheldMembers(d, ids[..|ids| - 1], z);
      assert ids == ids[..|ids| - 1] + [ids[|ids| - 1]];
    }
  }

  lemma {:induction false} StaleMembers(t: Tools, d: Disk, z: Id)
    requires ToolsOk(t)
    ensures z in Stale(t, d) <==> z in d.dirs && PlainName(z) && !RoleHeld(d.roles, z)
  {
    var listed := t.readdir(d.dirs.Keys);
    StrIsTotal();
    SortSorts(listed, StrLe);
    UnheldMembers(d, Sort(listed, StrLe), z);
    assert z in listed <==> z in Elems(listed);
  }

  lemma {:induction false} UnheldOrdered(d: Disk, ids: seq<Id>)
    requires NoDup(ids) && Sorted(ids, StrLe)
    ensures NoDup(Unheld(d, ids)) && Sorted(Unheld(d, ids), StrLe)
  {
    if ids != [] {
      var init, z := ids[..|ids| - 1], ids[|ids| - 1];
      var u := Unheld(d, init);
      assert ids == init + [z];
      UnheldOrdered(d, init);
      forall i | 0 <= i < |u| ensures u[i] != z && StrLe(u[i], z) {
        UnheldMembers(d, init, u[i]);
        var j :| 0 <= j < |init| && init[j] == u[i];
        assert ids[j] == u[i] && ids[|ids| - 1] == z;
      }
    }
  }

  lemma {:induction false} SortedOnce(ids: seq<Id>)
    requires NoDup(ids)
    ensures NoDup(Sort(ids, StrLe)) && Sorted(Sort(ids, StrLe), StrLe)
  {
    StrIsTotal();
    SortSorts(ids, StrLe);
    ElemsCard(ids);
    ElemsCard(Sort(ids, StrLe));
    assert Elems(Sort(ids, StrLe)) == Elems(ids);
  }

  /** The stale list has each deployment once, in order of name. */
  lemma {:induction false} StaleOrdered(t: Tools, d: Disk)
    requires ToolsOk(t)
    ensures NoDup(Stale(t, d)) && Sorted(Stale(t, d), StrLe)
  {
    SortedOnce(t.readdir(d.dirs.Keys));
    UnheldOrdered(d, Sort(t.readdir(d.dirs.Keys), StrLe));
  }

  lemma {:induction false} RmTreesQuiet(t: Tools, d: Disk, keep: set<Id>)
    requires forall id | id in keep :: RoleHeld(d.roles, id)
    ensures AllQuiet(RmTrees(Stale(t, d)), keep)
  {
    var stale := Stale(t, d);
    forall op | op in RmTrees(stale) ensures Quiet(op, keep) {
      var i :| 0 <= i < |stale| && op == RmTree(stale[i]);
      UnheldMembers(d, Sort(t.readdir(d.dirs.Keys), StrLe), stale[i]);
    }
  }

  /** gc removes no held deployment, and writes neither roles nor the ESP. */
  lemma {:induction false} GcQuiet(t: Tools, d: Disk, keep: set<Id>)
    requires Inv(t, d) && forall id | id in keep :: RoleHeld(d.roles, id)
    ensures AllQuiet(Gc(t, d), keep)
  {
    var rm := RmTrees(Stale(t, d));
    var m := Run(d, rm);
    var sweep := Sweep(m, t.walk(m.shared.Keys));
    RmTreesQuiet(t, d, keep);
    GcLegal(t, d);
    SweepEffect(t, m, t.walk(m.shared.Keys));
  }

  lemma {:induction false} RmTreeEffect(d: Disk, id: Id)
    ensures var r := Apply(d, RmTree(id));
            && r.dirs == d.dirs - {id} && r.shared == d.shared
            && r.roles == d.roles && r.roleTmps == d.roleTmps && r.esp == d.esp
            && r.limine == d.limine && r.limineTmp == d.limineTmp
            && (forall g :: ObjBytes(r, g) == ObjBytes(d, g) && IsSealed(r, g) == IsSealed(d, g))
  {
    assert id !in d.dirs ==> d.dirs - {id} == d.dirs;
  }

  lemma {:induction false} RmTreesEffect(d: Disk, ids: seq<Id>)
    ensures var r := Run(d, RmTrees(ids));
            && r.dirs == d.dirs - Elems(ids) && r.shared == d.shared
            && r.roles == d.roles && r.roleTmps == d.roleTmps && r.esp == d.esp
            && r.limine == d.limine && r.limineTmp == d.limineTmp
            && (forall g :: ObjBytes(r, g) == ObjBytes(d, g) && IsSealed(r, g) == IsSealed(d, g))
    decreases |ids|
  {
    if ids == [] {
      assert d.dirs - Elems(ids) == d.dirs;
    } else {
      var m := Apply(d, RmTree(ids[0]));
      assert RmTrees(ids)[0] == RmTree(ids[0]) && RmTrees(ids)[1..] == RmTrees(ids[1..]);
      RmTreeEffect(d, ids[0]);
      RmTreesEffect(m, ids[1..]);
      assert Elems(ids) == {ids[0]} + Elems(ids[1..]);
      assert d.dirs - {ids[0]} - Elems(ids[1..]) == d.dirs - Elems(ids);
    }
  }

  ghost function HeldDirs(d: Disk): map<Id, Dir> {
    map id | id in d.dirs && RoleHeld(d.roles, id) :: d.dirs[id]
  }

  /** The objects some role-held deployment's holder contains. */
  ghost predicate Reachable(d: Disk, g: Digest) {
    exists id | id in d.dirs :: RoleHeld(d.roles, id) && g in d.dirs[id].holder
  }

  lemma {:induction false} StaleIsUnheld(t: Tools, d: Disk)
    requires ToolsOk(t) && CommitOk(t, d)
    ensures Elems(Stale(t, d)) == d.dirs.Keys - HeldDirs(d).Keys
  {
    forall id ensures id in Elems(Stale(t, d)) <==> id in d.dirs.Keys - HeldDirs(d).Keys {
      StaleMembers(t, d, id);
      assert id in d.dirs ==> Committed(t, id, d.dirs[id]);
    }
  }

  lemma {:induction false} RmTreesKeepHeld(t: Tools, d: Disk)
    requires ToolsOk(t) && Inv(t, d)
    ensures Run(d, RmTrees(Stale(t, d))).dirs == HeldDirs(d)
  {
    RmTreesEffect(d, Stale(t, d));
    StaleIsUnheld(t, d);
    assert d.dirs - Elems(Stale(t, d)) == HeldDirs(d);
  }

  /**
   Link-count gc is reachability gc. From any disk that satisfies the invariant, however many interrupted
   landings preceded: the deployments left are exactly the role-held ones, the store holds exactly the
   objects it held that a role-held deployment's holder contains, with their bytes, and every temporary
   is gone; roles and the ESP are as they were.
   */
  lemma {:induction false} GcIsReachability(t: Tools, d: Disk)
    requires ToolsOk(t) && Inv(t, d)
    ensures var r := Run(d, Gc(t, d));
            && Inv(t, r)
            && r.dirs == HeldDirs(d)
            && r.roles == d.roles && r.roleTmps == d.roleTmps && r.esp == d.esp
            && (forall n :: n in r.shared <==> n in d.shared && n.Obj? && Reachable(d, n.digest))
            && (forall g | Obj(g) in r.shared :: ObjBytes(r, g) == ObjBytes(d, g) && IsSealed(r, g) == IsSealed(d, g))
  {
    var stale := Stale(t, d);
    var m := Run(d, RmTrees(stale));
    var names := t.walk(m.shared.Keys);
    GcLegal(t, d);
    LegalKeeps(t, d, Gc(t, d));
    RmTreesEffect(d, stale);
    RmTreesKeepHeld(t, d);
    SweepEffect(t, m, names);
    RunConcat(d, RmTrees(stale), Sweep(m, names));
    var r := Run(m, Sweep(m, names));
    assert Elems(names) == m.shared.Keys;
    forall n ensures n in r.shared <==> n in d.shared && n.Obj? && Reachable(d, n.digest) {
      assert n in r.shared <==> n in Kept(m, m.shared.Keys);
      HeldIsReachable(d, m, n);
    }
  }

  lemma {:induction false} GcKeepsHeld(t: Tools, d: Disk)
    requires ToolsOk(t) && Inv(t, d)
    ensures var r := Run(d, Gc(t, d));
            Inv(t, r) && r.dirs == HeldDirs(d) && r.roles == d.roles && r.esp == d.esp
  {
    GcIsReachability(t, d);
  }

  lemma {:induction false} LostCard(a: map<Id, Dir>, b: map<Id, Dir>, lost: set<Id>)
    requires b.Keys <= a.Keys && lost == a.Keys - b.Keys
    ensures |lost| == |a| - |b|
  {
    assert a.Keys == lost + b.Keys;
    assert |a.Keys| == |a| && |b.Keys| == |b|;
  }

  /** As many deployments go as the stale list has. */
  lemma {:induction false} StaleGo(t: Tools, d: Disk)
    requires ToolsOk(t) && Inv(t, d)
    ensures |Stale(t, d)| == |d.dirs| - |Run(d, Gc(t, d)).dirs|
  {
    StaleOrdered(t, d);
    NoDupCard(Stale(t, d));
    StaleIsUnheld(t, d);
    GcKeepsHeld(t, d);
    LostCard(d.dirs, HeldDirs(d), Elems(Stale(t, d)));
  }

  lemma {:induction false} HeldIsReachable(d: Disk, m: Disk, n: Name)
    requires m.dirs == HeldDirs(d)
    ensures Held(m.dirs, n) > 0 <==> n.Obj? && Reachable(d, n.digest)
  {
    if n.Obj? {
      var h := Holders(m.dirs, n.digest);
      if h != {} {
        var id :| id in h;
        assert id in m.dirs && RoleHeld(d.roles, id);
      }
      if Reachable(d, n.digest) {
        var id :| id in d.dirs && RoleHeld(d.roles, id) && n.digest in d.dirs[id].holder;
        assert id in h;
      }
    }
  }

  // ------------------------------------------------------ safe at every step

  /** Every prefix of the operations leaves a safe ESP. */
  ghost predicate Always(t: Tools, d: Disk, ops: seq<Op>) {
    forall k | 0 <= k <= |ops| :: EspSafe(t, Run(d, ops[..k]))
  }

  lemma {:induction false} AlwaysConcat(t: Tools, d: Disk, a: seq<Op>, b: seq<Op>)
    requires Always(t, d, a) && Always(t, Run(d, a), b)
    ensures Always(t, d, a + b)
  {
    forall k | 0 <= k <= |a + b| ensures EspSafe(t, Run(d, (a + b)[..k])) {
      if k <= |a| {
        assert (a + b)[..k] == a[..k];
      } else {
        assert (a + b)[..k] == a + b[..k - |a|];
        RunConcat(d, a, b[..k - |a|]);
      }
    }
  }

  lemma {:induction false} AlwaysNothing(t: Tools, d: Disk)
    requires EspSafe(t, d)
    ensures Always(t, d, [])
  {
    var ops: seq<Op> := [];
    forall k | 0 <= k <= |ops| ensures EspSafe(t, Run(d, ops[..k])) {
      assert ops[..k] == [];
    }
  }

  ghost function BootIds(d: Disk): set<Id> {
    (if CurrentEfi in d.esp then {d.esp[CurrentEfi].id} else {})
    + (if FallbackEfi in d.esp then {d.esp[FallbackEfi].id} else {})
  }

  /** gc issues removals and unlinks only. */
  predicate Removal(op: Op) { op.RmTree? || op.Unlink? }

  predicate AllRemovals(ops: seq<Op>) { forall op | op in ops :: Removal(op) }

  lemma {:induction false} RemovalsKeepRoles(d: Disk, ops: seq<Op>)
    requires AllRemovals(ops)
    ensures Run(d, ops).roles == d.roles && Run(d, ops).esp == d.esp && Run(d, ops).roleTmps == d.roleTmps
    decreases |ops|
  {
    if ops != [] {
      assert Removal(ops[0]);
      RemovalsKeepRoles(Apply(d, ops[0]), ops[1..]);
    }
  }

  lemma {:induction false} GcRemoves(t: Tools, d: Disk)
    requires Inv(t, d)
    ensures AllRemovals(Gc(t, d))
  {
    var rm := RmTrees(Stale(t, d));
    var m := Run(d, rm);
    GcLegal(t, d);
    SweepEffect(t, m, t.walk(m.shared.Keys));
    assert AllRemovals(rm) && AllRemovals(Sweep(m, t.walk(m.shared.Keys)));
  }

  /** Whatever a crash left, one gc, itself stopped anywhere, keeps a safe ESP safe. */
  lemma {:induction false} AlwaysGc(t: Tools, d: Disk)
    requires Inv(t, d) && EspSafe(t, d)
    ensures Always(t, d, Gc(t, d))
  {
    var ops := Gc(t, d);
    GcLegal(t, d);
    GcRemoves(t, d);
    GcQuiet(t, d, BootIds(d));
    forall k | 0 <= k <= |ops| ensures EspSafe(t, Run(d, ops[..k])) {
      LegalPrefix(t, d, ops, k);
      QuietOpsKeep(t, d, ops[..k], BootIds(d));
      RemovalsKeepRoles(d, ops[..k]);
    }
  }

  lemma {:induction false} AlwaysTwo(t: Tools, d: Disk, a: Op, b: Op)
    requires EspSafe(t, d) && EspSafe(t, Apply(d, a)) && EspSafe(t, Apply(Apply(d, a), b))
    ensures Always(t, d, [a, b]) && Run(d, [a, b]) == Apply(Apply(d, a), b)
  {
    AlwaysConcat(t, d, [a], [b]);
    RunConcat(d, [a], [b]);
    assert [a] + [b] == [a, b];
  }

  lemma {:induction false} CopyEspEffect(d: Disk, target: EspName, image: Image)
    requires target == CurrentEfi || target == FallbackEfi
    ensures Run(d, CopyEsp(target, image)) == d.(esp := (d.esp - {TmpOf(target)})[target := image])
  {
    var tmp := TmpOf(target);
    RunTwo(d, WriteEsp(tmp, image), RenameEsp(tmp, target));
    assert d.esp[tmp := image] - {tmp} == d.esp - {tmp};
  }

  lemma {:induction false} AlwaysCopyEsp(t: Tools, d: Disk, target: EspName, image: Image)
    requires target == CurrentEfi || target == FallbackEfi
    requires EspSafe(t, d) && ImageOk(t, d, image)
    ensures Always(t, d, CopyEsp(target, image)) && EspSafe(t, Run(d, CopyEsp(target, image)))
  {
    var a, b := WriteEsp(TmpOf(target), image), RenameEsp(TmpOf(target), target);
    AlwaysTwo(t, d, a, b);
  }

  lemma {:induction false} AlwaysSwitch(t: Tools, d: Disk, role: Role, id: Id)
    requires EspSafe(t, d) && EspSafe(t, d.(roles := d.roles[role := id]))
    ensures Always(t, d, [SymlinkRoleTmp(role, id), RenameRole(role)])
  {
    var a, b := SymlinkRoleTmp(role, id), RenameRole(role);
    AlwaysTwo(t, d, a, b);
  }

  lemma {:induction false} AlwaysSetRole(t: Tools, d: Disk, role: Role, id: Id)
    requires EspSafe(t, d) && EspSafe(t, d.(roles := d.roles[role := id]))
    ensures Always(t, d, SetRole(d, role, id))
  {
    var tail := [SymlinkRoleTmp(role, id), RenameRole(role)];
    if role in d.roleTmps {
      var u := UnlinkRoleTmp(role);
      var m := Apply(d, u);
      AlwaysSwitch(t, m, role, id);
      AlwaysConcat(t, d, [u], tail);
    } else {
      AlwaysSwitch(t, d, role, id);
      assert [] + tail == tail;
    }
  }

  // ------------------------------------------------------------- consistency

  /** One role and its ESP file agree. */
  ghost predicate Pair(d: Disk, role: Role, f: EspName) {
    && (role in d.roles <==> f in d.esp)
    && (role in d.roles ==> d.esp[f].id == d.roles[role])
  }

  /** ESP current and fallback are the current and fallback roles, two different images, each safe. */
  ghost predicate Agree(t: Tools, d: Disk) {
    && EspSafe(t, d)
    && Pair(d, Current, CurrentEfi) && Pair(d, Fallback, FallbackEfi)
    && (Fallback in d.roles ==> Current in d.roles && d.roles[Fallback] != d.roles[Current])
  }

  /** What holds between commands. */
  ghost predicate Consistent(t: Tools, d: Disk) { Inv(t, d) && Agree(t, d) }

  /** Quiet operations keep it: the ESP's images are held by the two boot roles themselves. */
  lemma {:induction false} QuietKeepsConsistent(t: Tools, d: Disk, ops: seq<Op>)
    requires Consistent(t, d) && Legal(t, d, ops) && AllQuiet(ops, BootIds(d))
    ensures Consistent(t, Run(d, ops))
  {
    LegalKeeps(t, d, ops);
    QuietOpsKeep(t, d, ops, BootIds(d));
    var r := Run(d, ops);
    assert Get(r, Current) == Get(d, Current) && Get(r, Fallback) == Get(d, Fallback);
  }

  lemma {:induction false} AlwaysQuiet(t: Tools, d: Disk, ops: seq<Op>)
    requires Consistent(t, d) && Legal(t, d, ops) && AllQuiet(ops, BootIds(d))
    ensures Always(t, d, ops) && forall k | 0 <= k <= |ops| :: Consistent(t, Run(d, ops[..k]))
  {
    forall k | 0 <= k <= |ops| ensures Consistent(t, Run(d, ops[..k])) {
      LegalPrefix(t, d, ops, k);
      QuietKeepsConsistent(t, d, ops[..k]);
    }
  }

  // ----------------------------------------------------------------- promote

  /** `d` but for the ESP and the loader. */
  ghost predicate OnlyEsp(d: Disk, r: Disk) {
    && r.roles == d.roles && r.roleTmps == d.roleTmps && r.dirs == d.dirs
    && r.shared == d.shared && r.inodes == d.inodes && r.next == d.next
  }

  lemma {:induction false} LimineEffect(t: Tools, d: Disk, loader: string)
    requires EspSafe(t, d)
    ensures Always(t, d, [WriteLimine(loader), RenameLimine])
  {
    var a := WriteLimine(loader);
    AlwaysTwo(t, d, a, RenameLimine);
  }

  function LimineOps(d: Disk, id: Id): seq<Op> {
    if id in d.dirs && d.dirs[id].loader.Some? then [WriteLimine(d.dirs[id].loader.value), RenameLimine] else []
  }

  function FallbackOps(d: Disk): seq<Op> {
    if Current in d.roles && CurrentEfi in d.esp then CopyEsp(FallbackEfi, d.esp[CurrentEfi]) else []
  }

  lemma {:induction false} FallbackEffect(d: Disk)
    ensures var m := Run(d, FallbackOps(d));
            && OnlyEsp(d, m)
            && (if Current in d.roles && CurrentEfi in d.esp
                then m.esp == (d.esp - {FallbackTmp})[FallbackEfi := d.esp[CurrentEfi]] else m.esp == d.esp)
  {
    if FallbackOps(d) != [] { CopyEspEffect(d, FallbackEfi, d.esp[CurrentEfi]); }
  }

  lemma {:induction false} LimineOpsEffect(d: Disk, n: Disk, id: Id)
    ensures OnlyEsp(n, Run(n, LimineOps(d, id))) && Run(n, LimineOps(d, id)).esp == n.esp
  {
    if LimineOps(d, id) != [] { RunTwo(n, LimineOps(d, id)[0], RenameLimine); }
  }

  /** The ESP after the ESP half: the new image as current, the old current, if any, as fallback. */
  lemma {:induction false} PromoteEspEffect(d: Disk, id: Id, image: Image)
    ensures var r := Run(d, PromoteEsp(d, id, image));
            && OnlyEsp(d, r) && CurrentEfi in r.esp && r.esp[CurrentEfi] == image
            && (if Current in d.roles && CurrentEfi in d.esp
                then FallbackEfi in r.esp && r.esp[FallbackEfi] == d.esp[CurrentEfi]
                else (FallbackEfi in r.esp <==> FallbackEfi in d.esp)
                     && (FallbackEfi in d.esp ==> r.esp[FallbackEfi] == d.esp[FallbackEfi]))
  {
    var a, b, c := FallbackOps(d), CopyEsp(CurrentEfi, image), LimineOps(d, id);
    var m := Run(d, a);
    FallbackEffect(d);
    CopyEspEffect(m, CurrentEfi, image);
    LimineOpsEffect(d, Run(m, b), id);
    RunConcat(d, a, b);
    RunConcat(d, a + b, c);
  }

  lemma {:induction false} AlwaysFallback(t: Tools, d: Disk)
    requires EspSafe(t, d)
    ensures Always(t, d, FallbackOps(d)) && EspSafe(t, Run(d, FallbackOps(d)))
  {
    if FallbackOps(d) != [] { AlwaysCopyEsp(t, d, FallbackEfi, d.esp[CurrentEfi]); } else { AlwaysNothing(t, d); }
  }

  lemma {:induction false} AlwaysLimine(t: Tools, d: Disk, n: Disk, id: Id)
    requires EspSafe(t, n)
    ensures Always(t, n, LimineOps(d, id))
  {
    if LimineOps(d, id) != [] { LimineEffect(t, n, d.dirs[id].loader.value); } else { AlwaysNothing(t, n); }
  }

  /** The ESP half is safe when the new image is complete and held. */
  lemma {:induction false} AlwaysPromoteEsp(t: Tools, d: Disk, id: Id, image: Image)
    requires EspSafe(t, d) && ImageOk(t, d, image)
    ensures Always(t, d, PromoteEsp(d, id, image))
  {
    var a, b, c := FallbackOps(d), CopyEsp(CurrentEfi, image), LimineOps(d, id);
    var m := Run(d, a);
    FallbackEffect(d);
    AlwaysFallback(t, d);
    AlwaysCopyEsp(t, m, CurrentEfi, image);
    AlwaysConcat(t, d, a, b);
    RunConcat(d, a, b);
    AlwaysLimine(t, d, Run(m, b), id);
    AlwaysConcat(t, d, a + b, c);
  }

  /** The roles a promotion leaves. */
  function Promoted(roles: map<Role, Id>, id: Id): map<Role, Id> {
    (if Current in roles then roles[Fallback := roles[Current]] else roles)[Current := id] - {Staging}
  }

  lemma {:induction false} ClearRoleEffect(d: Disk, role: Role)
    ensures Run(d, ClearRole(d, role)) == d.(roles := d.roles - {role})
  {
    if role in d.roles {
      RunOne(d, UnlinkRole(role));
    } else {
      assert d.roles - {role} == d.roles;
    }
  }

  lemma {:induction false} SecondHalfEffect(t: Tools, m: Disk, id: Id)
    ensures var r := Run(m, SetRole(m, Current, id) + ClearRole(m, Staging));
            r == m.(roles := m.roles[Current := id] - {Staging}, roleTmps := m.roleTmps - {Current})
  {
    var n := Run(m, SetRole(m, Current, id));
    SetRoleEffect(t, m, Current, id);
    ClearRoleEffect(n, Staging);
    RunConcat(m, SetRole(m, Current, id), ClearRole(m, Staging));
  }

  lemma {:induction false} PromoteRolesSplit(t: Tools, d: Disk, id: Id)
    ensures var a := if Current in d.roles then SetRole(d, Fallback, d.roles[Current]) else [];
            var m := Run(d, a);
            && PromoteRoles(d, id) == a + (SetRole(m, Current, id) + ClearRole(m, Staging))
            && Run(d, PromoteRoles(d, id)) == Run(m, SetRole(m, Current, id) + ClearRole(m, Staging))
            && m == d.(roles := m.roles, roleTmps := m.roleTmps)
            && m.roles == if Current in d.roles then d.roles[Fallback := d.roles[Current]] else d.roles
  {
    var a := if Current in d.roles then SetRole(d, Fallback, d.roles[Current]) else [];
    var m := Run(d, a);
    if a != [] { SetRoleEffect(t, d, Fallback, d.roles[Current]); }
    RunConcat(d, a, SetRole(m, Current, id) + ClearRole(m, Staging));
  }

  lemma {:induction false} PromoteRolesEffect(t: Tools, d: Disk, id: Id)
    ensures var r := Run(d, PromoteRoles(d, id));
            && r.roles == Promoted(d.roles, id) && r.esp == d.esp && r.dirs == d.dirs
            && r.shared == d.shared && r.inodes == d.inodes && r.next == d.next
  {
    var m := Run(d, if Current in d.roles then SetRole(d, Fallback, d.roles[Current]) else []);
    PromoteRolesSplit(t, d, id);
    SecondHalfEffect(t, m, id);
  }

  /** The role half is safe when the ESP names only the new image and the old current. */
  lemma {:induction false} AlwaysPromoteRoles(t: Tools, d: Disk, id: Id)
    requires EspSafe(t, d) && CurrentEfi in d.esp && d.esp[CurrentEfi].id == id && NamedBy(d.roles, Staging, id)
    requires FallbackEfi in d.esp ==> Current in d.roles && d.esp[FallbackEfi].id == d.roles[Current]
    ensures Always(t, d, PromoteRoles(d, id)) && EspSafe(t, Run(d, PromoteRoles(d, id)))
  {
    var a := if Current in d.roles then SetRole(d, Fallback, d.roles[Current]) else [];
    var m := Run(d, a);
    PromoteRolesSplit(t, d, id);
    if a != [] { AlwaysSetRole(t, d, Fallback, d.roles[Current]); } else { AlwaysNothing(t, d); }
    AlwaysSecondHalf(t, m, id);
    AlwaysConcat(t, d, a, SetRole(m, Current, id) + ClearRole(m, Staging));
  }

  lemma {:induction false} AlwaysSecondHalf(t: Tools, m: Disk, id: Id)
    requires EspSafe(t, m) && CurrentEfi in m.esp && m.esp[CurrentEfi].id == id && NamedBy(m.roles, Staging, id)
    requires FallbackEfi in m.esp ==> NamedBy(m.roles, Fallback, m.esp[FallbackEfi].id)
    ensures var ops := SetRole(m, Current, id) + ClearRole(m, Staging);
            Always(t, m, ops) && EspSafe(t, Run(m, ops))
  {
    var b, c := SetRole(m, Current, id), ClearRole(m, Staging);
    var n := Run(m, b);
    SetRoleEffect(t, m, Current, id);
    AlwaysSetRole(t, m, Current, id);
    SecondHalfEffect(t, m, id);
    AlwaysClearStaging(t, n, id);
    AlwaysConcat(t, m, b, c);
  }

  lemma {:induction false} AlwaysClearStaging(t: Tools, n: Disk, id: Id)
    requires EspSafe(t, n) && NamedBy(n.roles, Current, id) && CurrentEfi in n.esp && n.esp[CurrentEfi].id == id
    requires FallbackEfi in n.esp ==> NamedBy(n.roles, Fallback, n.esp[FallbackEfi].id)
    ensures Always(t, n, ClearRole(n, Staging)) && EspSafe(t, Run(n, ClearRole(n, Staging)))
  {
    ClearRoleEffect(n, Staging);
    if Staging in n.roles { } else { AlwaysNothing(t, n); }
  }

  /** The state a flip leaves. */
  lemma {:induction false} FlipEffect(t: Tools, d: Disk, id: Id, image: Image)
    ensures var e := Run(d, PromoteEsp(d, id, image));
            var r := Run(d, Flip(d, id, image));
            && OnlyEsp(d, e) && PromoteRoles(e, id) == PromoteRoles(d, id)
            && r == Run(e, PromoteRoles(e, id)) && r.esp == e.esp
            && r.roles == Promoted(d.roles, id) && r.dirs == d.dirs
            && r.shared == d.shared && r.inodes == d.inodes && r.next == d.next
  {
    var e := Run(d, PromoteEsp(d, id, image));
    PromoteEspEffect(d, id, image);
    PromoteRolesEffect(t, e, id);
    RunConcat(d, PromoteEsp(d, id, image), PromoteRoles(d, id));
  }

  /** After every operation of a promotion of the staged image, both entries of the boot menu are good. */
  lemma {:induction false} AlwaysPromote(t: Tools, d: Disk, id: Id)
    requires Consistent(t, d) && NamedBy(d.roles, Staging, id)
    ensures Always(t, d, Promote(t, d, id).ops)
  {
    if Get(d, Current) == Some(id) {
      assert EspSafe(t, Apply(d, UnlinkRole(Staging)));
    } else if Staged(d, id).None? {
      AlwaysNothing(t, d);
    } else {
      var image := Staged(d, id).value;
      var up := PromoteEsp(d, id, image);
      var e := Run(d, up);
      AlwaysPromoteEsp(t, d, id, image);
      PromoteEspEffect(d, id, image);
      assert EspSafe(t, e) by { assert up[..|up|] == up; }
      FlipEffect(t, d, id, image);
      AlwaysPromoteRoles(t, e, id);
      AlwaysConcat(t, d, up, PromoteRoles(d, id));
      var r := Run(d, Flip(d, id, image));
      FlipLegal(t, d, id, image);
      AlwaysGc(t, r);
      AlwaysConcat(t, d, Flip(d, id, image), Gc(t, r));
    }
  }

  lemma {:induction false} FlipLegal(t: Tools, d: Disk, id: Id, image: Image)
    requires Inv(t, d)
    ensures Legal(t, d, Flip(d, id, image)) && Inv(t, Run(d, Flip(d, id, image)))
  {
    FlipSucceeds(t, d, id, image);
    LegalKeeps(t, d, Flip(d, id, image));
  }

  lemma {:induction false} FlipThenGc(t: Tools, d: Disk, id: Id)
    requires Get(d, Current) != Some(id) && Staged(d, id).Some?
    ensures var e := Run(d, Flip(d, id, Staged(d, id).value));
            Do(d, Promote(t, d, id)) == Run(e, Gc(t, e))
  {
    var flip := Flip(d, id, Staged(d, id).value);
    RunConcat(d, flip, Gc(t, Run(d, flip)));
  }

  lemma {:induction false} GcSameBoot(t: Tools, e: Disk)
    requires Inv(t, e)
    ensures Run(e, Gc(t, e)).roles == e.roles && Run(e, Gc(t, e)).esp == e.esp
  {
    GcRemoves(t, e);
    RemovalsKeepRoles(e, Gc(t, e));
  }

  /** The roles move, the ESP is that of the first half. */
  lemma {:induction false} PromotedDisk(t: Tools, d: Disk, id: Id)
    requires Inv(t, d) && Get(d, Current) != Some(id) && Staged(d, id).Some?
    ensures var r := Do(d, Promote(t, d, id));
            r.roles == Promoted(d.roles, id) && r.esp == Run(d, PromoteEsp(d, id, Staged(d, id).value)).esp
  {
    var image := Staged(d, id).value;
    FlipEffect(t, d, id, image);
    FlipLegal(t, d, id, image);
    GcSameBoot(t, Run(d, Flip(d, id, image)));
    FlipThenGc(t, d, id);
  }

  /** Roles and ESP after a finished promotion of another image, from any disk. */
  lemma {:induction false} PromoteEffect(t: Tools, d: Disk, id: Id)
    requires Inv(t, d) && Get(d, Current) != Some(id) && Staged(d, id).Some?
    ensures var r := Do(d, Promote(t, d, id));
            && r.roles == Promoted(d.roles, id)
            && CurrentEfi in r.esp && r.esp[CurrentEfi] == Staged(d, id).value
            && (if Current in d.roles && CurrentEfi in d.esp
                then FallbackEfi in r.esp && r.esp[FallbackEfi] == d.esp[CurrentEfi]
                else (FallbackEfi in r.esp <==> FallbackEfi in d.esp)
                     && (FallbackEfi in d.esp ==> r.esp[FallbackEfi] == d.esp[FallbackEfi]))
  {
    PromoteEspEffect(d, id, Staged(d, id).value);
    PromotedDisk(t, d, id);
  }

  predicate NoLoader(ops: seq<Op>) { forall op | op in ops :: !op.WriteLimine? && !op.RenameLimine? }

  lemma {:induction false} OpKeepsLoader(d: Disk, op: Op)
    requires !op.RenameLimine?
    ensures Apply(d, op).limine == d.limine
  {
  }

  lemma {:induction false} NoLoaderKeeps(d: Disk, ops: seq<Op>)
    requires NoLoader(ops)
    ensures Run(d, ops).limine == d.limine
    decreases |ops|
  {
    if ops != [] {
      OpKeepsLoader(d, ops[0]);
      NoLoaderKeeps(Apply(d, ops[0]), ops[1..]);
    }
  }

  lemma {:induction false} LimineOpsLoader(d: Disk, n: Disk, id: Id)
    ensures Run(n, LimineOps(d, id)).limine
         == if id in d.dirs && d.dirs[id].loader.Some? then d.dirs[id].loader else n.limine
  {
    if LimineOps(d, id) != [] { RunTwo(n, LimineOps(d, id)[0], RenameLimine); }
  }

  lemma {:induction false} PromoteEspLoader(d: Disk, id: Id, image: Image)
    ensures Run(d, PromoteEsp(d, id, image)).limine
         == if id in d.dirs && d.dirs[id].loader.Some? then d.dirs[id].loader else d.limine
  {
    var a := FallbackOps(d) + CopyEsp(CurrentEfi, image);
    RunConcat(d, a, LimineOps(d, id));
    NoLoaderKeeps(d, a);
    LimineOpsLoader(d, Run(d, a), id);
  }

  lemma {:induction false} GcNoLoader(t: Tools, e: Disk)
    requires Inv(t, e)
    ensures NoLoader(Gc(t, e))
  {
    GcRemoves(t, e);
    forall op | op in Gc(t, e) ensures !op.WriteLimine? && !op.RenameLimine? { assert Removal(op); }
  }

  lemma {:induction false} RolesNoLoader(d: Disk, id: Id)
    ensures NoLoader(PromoteRoles(d, id))
  {
  }

  /** A finished promotion has refreshed the loader on the ESP, if the deployment brings one. */
  lemma {:induction false} PromoteRefreshesLoader(t: Tools, d: Disk, id: Id)
    requires Inv(t, d) && Get(d, Current) != Some(id) && Staged(d, id).Some?
    ensures Do(d, Promote(t, d, id)).limine == if d.dirs[id].loader.Some? then d.dirs[id].loader else d.limine
  {
    var image := Staged(d, id).value;
    var up, e := Run(d, PromoteEsp(d, id, image)), Run(d, Flip(d, id, image));
    RolesNoLoader(d, id);
    FlipLegal(t, d, id, image);
    GcNoLoader(t, e);
    FlipThenGc(t, d, id);
    NoLoaderKeeps(e, Gc(t, e));
    RunConcat(d, PromoteEsp(d, id, image), PromoteRoles(d, id));
    NoLoaderKeeps(up, PromoteRoles(d, id));
    PromoteEspLoader(d, id, image);
  }

  lemma {:induction false} PromoteKeepsInv(t: Tools, d: Disk, id: Id)
    requires Consistent(t, d) && NamedBy(d.roles, Staging, id)
    ensures Inv(t, Do(d, Promote(t, d, id))) && EspSafe(t, Do(d, Promote(t, d, id)))
  {
    var p := Promote(t, d, id);
    AlwaysPromote(t, d, id);
    assert p.ops[..|p.ops|] == p.ops;
    PromoteLegal(t, d, id);
    LegalKeeps(t, d, p.ops);
  }

  /** A finished promotion is consistent again. */
  lemma {:induction false} PromoteConsistent(t: Tools, d: Disk, id: Id)
    requires Consistent(t, d) && NamedBy(d.roles, Staging, id)
    ensures Consistent(t, Do(d, Promote(t, d, id)))
  {
    var r := Do(d, Promote(t, d, id));
    PromoteKeepsInv(t, d, id);
    if Get(d, Current) == Some(id) {
      ClearRoleEffect(d, Staging);
    } else if Staged(d, id).Some? {
      PromoteEffect(t, d, id);
    }
  }
}
