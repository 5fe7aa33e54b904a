/**
 What each command is for, said of the disk alone: exactly when it returns, what it leaves when it does, and what
 when it dies. The plans of `Lifecycle` are proved to keep to it from every disk that satisfies the invariant.
 */
module Outcomes {
  import opened Options
  import opened Filesystem
  import opened Objects
  import opened Transfer
  import opened Landings
  import opened Lifecycle
  import opened Safety
  import opened Rollbacks
  import opened Runs
  import opened Promotions
  import opened Reinstall
  import opened Wedge

  // ------------------------------------------------------------------- building

  /** What it takes to build a deployment. */
  ghost predicate Buildable(t: Tools, d: Disk, s: Source) {
    && s.uki.Some?
    && SupplyLands(t, d, t.refs(s.cfs), s.supply)
    && t.measure(s.cfs) == s.digest
  }

  /** The deployments but for this one, the roles and the ESP. */
  ghost predicate SameBut(d: Disk, r: Disk, id: Id) {
    && r.roles == d.roles && r.roleTmps == d.roleTmps
    && r.esp == d.esp && r.limine == d.limine && r.limineTmp == d.limineTmp
    && r.dirs - {id} == d.dirs - {id}
  }

  lemma {:induction false} SameButTrans(d: Disk, m: Disk, r: Disk, id: Id)
    requires SameBut(d, m, id) && SameBut(m, r, id)
    ensures SameBut(d, r, id)
  {
  }

  /** `root.cfs`, seal, UKI and loader of the artifact, and a holder with what it refers to. */
  ghost predicate BuiltDir(t: Tools, r: Disk, s: Source) {
    && s.id in r.dirs
    && r.dirs[s.id] == Dir(Some(s.cfs), true, r.dirs[s.id].holder, s.uki, s.loader)
    && r.dirs[s.id].holder.Keys == Present(r, t.refs(s.cfs))
  }

  lemma {:induction false} CopyOutcome(d: Disk, op: Op)
    requires (op.CopyUki? || op.CopyLoader?) && op.id in d.dirs
    ensures var r := Apply(d, op);
            && SameBut(d, r, op.id) && r.shared == d.shared
            && r.dirs == d.dirs[op.id := if op.CopyUki? then d.dirs[op.id].(uki := Some(op.image))
                                         else d.dirs[op.id].(loader := Some(op.loader))]
  {
  }

  lemma {:induction false} LinksOutcome(t: Tools, d: Disk, s: Source)
    requires Inv(t, d) && s.id in d.dirs && d.dirs[s.id] == Dir(Some(s.cfs), true, map[], None, None)
    ensures var m := Run(d, LinkRefs(d, s.id, t.refs(s.cfs)));
            && SameBut(d, m, s.id) && m.shared == d.shared && s.id in m.dirs
            && m.dirs[s.id] == Dir(Some(s.cfs), true, m.dirs[s.id].holder, None, None)
            && m.dirs[s.id].holder.Keys == Present(d, t.refs(s.cfs))
  {
    LinkRefsEffect(t, d, s.id, t.refs(s.cfs));
    var m := Run(d, LinkRefs(d, s.id, t.refs(s.cfs)));
    assert m.dirs - {s.id} == d.dirs - {s.id};
  }

  lemma {:induction false} FinishOutcome(t: Tools, d: Disk, s: Source)
    requires Inv(t, d) && s.uki.Some? && s.id in d.dirs && d.dirs[s.id] == Dir(Some(s.cfs), true, map[], None, None)
    ensures var r := Run(d, Finish(t, d, s)); SameBut(d, r, s.id) && r.shared == d.shared && BuiltDir(t, r, s)
  {
    var links, u := LinkRefs(d, s.id, t.refs(s.cfs)), CopyUki(s.id, s.uki.value);
    var m := Run(d, links);
    var n := Apply(m, u);
    LinksOutcome(t, d, s);
    CopyOutcome(m, u);
    SameButTrans(d, m, n, s.id);
    RunConcat(d, links, [u]);
    RunOne(m, u);
    if s.loader.Some? {
      var l := CopyLoader(s.id, s.loader.value);
      CopyOutcome(n, l);
      SameButTrans(d, n, Apply(n, l), s.id);
      RunConcat(d, links + [u], [l]);
      RunOne(n, l);
    } else {
      assert Finish(t, d, s) == links + [u];
    }
  }

  lemma {:induction false} BuildOutcome(t: Tools, d: Disk, s: Source)
    requires Inv(t, d) && s.uki.Some? && s.id in d.dirs && d.dirs[s.id] == EMPTY_DIR
    ensures var p := Build(t, d, s);
            var r := Do(d, p);
            && (p.ok <==> t.measure(s.cfs) == s.digest)
            && SameBut(d, r, s.id) && r.shared == d.shared && s.id in r.dirs
            && (if p.ok then BuiltDir(t, r, s) else r.dirs[s.id] == Dir(Some(s.cfs), true, map[], None, None))
  {
    var m := Do(d, PlaceCfs(t, s));
    PlaceCfsEffect(t, d, s);
    assert m.dirs - {s.id} == d.dirs - {s.id};
    if t.measure(s.cfs) == s.digest {
      FinishOutcome(t, m, s);
      SameButTrans(d, m, Run(m, Finish(t, m, s)), s.id);
      RunConcat(d, PlaceCfs(t, s).ops, Finish(t, m, s));
    }
  }

  /** Making the directory changes nothing a landing looks at. */
  lemma {:induction false} LandsAsWell(t: Tools, d: Disk, m: Disk, refs: seq<Digest>, s: Supply)
    requires m.shared == d.shared && m.inodes == d.inodes
    ensures SupplyLands(t, m, refs, s) <==> SupplyLands(t, d, refs, s)
    ensures Temps(m) == Temps(d)
  {
    assert Digests(m) == Digests(d) && Contents(m) == Contents(d);
    forall p ensures Lands(t, m, p) <==> Lands(t, d, p) {
    }
  }

  /** The objects of the store after a landing that returned. */
  ghost predicate StoreWith(d: Disk, r: Disk, brought: set<Digest>) {
    forall g :: Obj(g) in r.shared <==> Obj(g) in d.shared || g in brought
  }

  /** What a build leaves: how far it has come, and what of it is in the store. */
  ghost predicate BuildLeft(t: Tools, d: Disk, s: Source, r: Disk) {
    && SameBut(d, r, s.id) && s.id in r.dirs && AtMostOneLeft(t, d, r)
    && (if SupplyLands(t, d, t.refs(s.cfs), s.supply) then
          && Temps(r) <= Temps(d) && StoreWith(d, r, Brought(t.refs(s.cfs), s.supply))
          && (if Buildable(t, d, s) then BuiltDir(t, r, s)
              else r.dirs[s.id] == Dir(Some(s.cfs), true, map[], None, None))
        else r.dirs[s.id] == EMPTY_DIR)
  }

  lemma {:induction false} MkDirFrame(d: Disk, id: Id)
    requires id in d.dirs ==> d.dirs[id] == EMPTY_DIR
    ensures var m := Apply(d, MkDir(id));
            m.shared == d.shared && m.inodes == d.inodes && SameBut(d, m, id) && m.dirs == d.dirs[id := EMPTY_DIR]
  {
    assert d.dirs[id := EMPTY_DIR] - {id} == d.dirs - {id};
    assert id in d.dirs ==> d.dirs[id := EMPTY_DIR] == d.dirs;
  }

  lemma {:induction false} SameHostBut(d: Disk, m: Disk, n: Disk, id: Id)
    requires SameBut(d, m, id) && SameHost(m, n)
    ensures SameBut(d, n, id)
  {
  }

  lemma {:induction false} NotYetThere(t: Tools, d: Disk, id: Id)
    requires Inv(t, d) && !HasCfs(d, id)
    ensures id in d.dirs ==> d.dirs[id] == EMPTY_DIR
  {
    assert id in d.dirs ==> Committed(t, id, d.dirs[id]);
  }

  lemma {:induction false} LandedHost(t: Tools, d: Disk, s: Source)
    requires Inv(t, d) && SourceOk(t, s) && !HasCfs(d, s.id)
    ensures var m := Apply(d, MkDir(s.id));
            var n := Do(m, Landed(t, d, s));
            Inv(t, m) && Inv(t, n) && SameHost(m, n)
  {
    LandedEffect(t, d, s);
  }

  lemma {:induction false} LandedFrame(t: Tools, d: Disk, s: Source)
    requires Inv(t, d) && SourceOk(t, s) && !HasCfs(d, s.id)
    ensures var m := Apply(d, MkDir(s.id));
            var n := Do(m, Landed(t, d, s));
            && Inv(t, m) && m.shared == d.shared && m.inodes == d.inodes
            && Inv(t, n) && SameBut(d, n, s.id) && s.id in n.dirs && n.dirs[s.id] == EMPTY_DIR
  {
    NotYetThere(t, d, s.id);
    MkDirFrame(d, s.id);
    LandedHost(t, d, s);
    SameHostBut(d, Apply(d, MkDir(s.id)), Do(Apply(d, MkDir(s.id)), Landed(t, d, s)), s.id);
  }

  lemma {:induction false} SameTemps(t: Tools, d: Disk, m: Disk, r: Disk)
    requires m.shared == d.shared
    ensures Temps(m) == Temps(d) && (AtMostOneLeft(t, m, r) <==> AtMostOneLeft(t, d, r))
    ensures forall b :: StoreWith(m, r, b) <==> StoreWith(d, r, b)
  {
  }

  lemma {:induction false} LandingStore(t: Tools, m: Disk, refs: seq<Digest>, s: Supply)
    requires Inv(t, m) && SupplyOk(s) && LandSupply(t, m, refs, s).ok
    ensures StoreWith(m, Do(m, LandSupply(t, m, refs, s)), Brought(refs, s))
  {
    var r := Do(m, LandSupply(t, m, refs, s));
    forall g ensures Obj(g) in r.shared <==> Obj(g) in m.shared || g in Brought(refs, s) {
      LandingBrings(t, m, refs, s, g);
    }
  }

  lemma {:induction false} LandedBack(t: Tools, d: Disk, m: Disk, refs: seq<Digest>, s: Supply)
    requires Inv(t, m) && SupplyOk(s) && NoDup(refs) && m.shared == d.shared && m.inodes == d.inodes
    ensures var l := LandSupply(t, m, refs, s);
            && (l.ok <==> SupplyLands(t, d, refs, s)) && AtMostOneLeft(t, d, Do(m, l))
            && (l.ok ==> Temps(Do(m, l)) <= Temps(d) && StoreWith(d, Do(m, l), Brought(refs, s)))
  {
    var l := LandSupply(t, m, refs, s);
    LandsAsWell(t, d, m, refs, s);
    LandingReturns(t, m, refs, s);
    LandingLeaves(t, m, refs, s);
    SameTemps(t, d, m, Do(m, l));
    if l.ok { LandingStore(t, m, refs, s); }
  }

  lemma {:induction false} LandedOutcome(t: Tools, d: Disk, s: Source)
    requires ToolsOk(t) && Inv(t, d) && SourceOk(t, s) && !HasCfs(d, s.id)
    ensures var l := Landed(t, d, s);
            var n := Do(Apply(d, MkDir(s.id)), l);
            && (l.ok <==> SupplyLands(t, d, t.refs(s.cfs), s.supply))
            && Inv(t, n) && SameBut(d, n, s.id) && s.id in n.dirs && n.dirs[s.id] == EMPTY_DIR
            && AtMostOneLeft(t, d, n)
            && (l.ok ==> Temps(n) <= Temps(d) && StoreWith(d, n, Brought(t.refs(s.cfs), s.supply)))
  {
    LandedFrame(t, d, s);
    LandedBack(t, d, Apply(d, MkDir(s.id)), t.refs(s.cfs), s.supply);
  }

  lemma {:induction false} MaterializeRuns(t: Tools, d: Disk, s: Source)
    requires s.uki.Some?
    ensures var m := Apply(d, MkDir(s.id));
            var l := Landed(t, d, s);
            var b := Build(t, Do(m, l), s);
            && Materialize(t, d, s).ok == (l.ok && b.ok)
            && Do(d, Materialize(t, d, s)) == if l.ok then Do(Do(m, l), b) else Do(m, l)
  {
    var m := Apply(d, MkDir(s.id));
    var l := Landed(t, d, s);
    var b := Build(t, Do(m, l), s);
    RunConcat(d, [MkDir(s.id)], Then(l, b).ops);
    RunOne(d, MkDir(s.id));
    RunConcat(m, l.ops, b.ops);
  }

  lemma {:induction false} LeftByBuild(t: Tools, d: Disk, n: Disk, r: Disk, s: Source)
    requires SameBut(d, n, s.id) && SameBut(n, r, s.id) && r.shared == n.shared
    ensures SameBut(d, r, s.id)
    ensures Temps(r) == Temps(n) && (AtMostOneLeft(t, d, n) ==> AtMostOneLeft(t, d, r))
    ensures forall b :: StoreWith(d, n, b) ==> StoreWith(d, r, b)
  {
    SameButTrans(d, n, r, s.id);
  }

  /** `materialize` returns exactly when the deployment is buildable; without a UKI it has changed nothing. */
  lemma {:induction false} MaterializeOutcome(t: Tools, d: Disk, s: Source)
    requires ToolsOk(t) && Inv(t, d) && SourceOk(t, s) && !HasCfs(d, s.id)
    ensures var p := Materialize(t, d, s);
            && (p.ok <==> Buildable(t, d, s))
            && (if s.uki.None? then Do(d, p) == d else BuildLeft(t, d, s, Do(d, p)))
  {
    if s.uki.Some? {
      var n := Do(Apply(d, MkDir(s.id)), Landed(t, d, s));
      MaterializeRuns(t, d, s);
      LandedOutcome(t, d, s);
      BuildOutcome(t, n, s);
      LeftByBuild(t, d, n, Do(n, Build(t, n, s)), s);
    }
  }

  // -------------------------------------------------------------------- staging

  /** What it takes to stage an image: its `root.cfs` is there, or it can be built. */
  ghost predicate Stageable(t: Tools, d: Disk, s: Source) { HasCfs(d, s.id) || Buildable(t, d, s) }

  /** What staging leaves: the ESP and the other deployments as they were, and the mark, if it returned. */
  ghost predicate StageLeft(t: Tools, d: Disk, s: Source, r: Disk) {
    && r.esp == d.esp && r.limine == d.limine && r.limineTmp == d.limineTmp && r.dirs - {s.id} == d.dirs - {s.id}
    && r.roles == (if Stageable(t, d, s) then d.roles[Staging := s.id] else d.roles)
    && (if HasCfs(d, s.id) then r.dirs == d.dirs && r.shared == d.shared
        else if s.uki.None? then r == d
        else BuildLeft(t, d, s, r.(roles := d.roles, roleTmps := d.roleTmps)))
  }

  lemma {:induction false} MarkedOutcome(t: Tools, d: Disk, m: Disk, s: Source)
    requires !HasCfs(d, s.id) && BuildLeft(t, d, s, m) && Buildable(t, d, s)
    ensures StageLeft(t, d, s, m.(roles := m.roles[Staging := s.id], roleTmps := m.roleTmps - {Staging}))
  {
    var r := m.(roles := m.roles[Staging := s.id], roleTmps := m.roleTmps - {Staging});
    assert r.(roles := d.roles, roleTmps := d.roleTmps) == m;
  }

  lemma {:induction false} UnmarkedOutcome(t: Tools, d: Disk, m: Disk, s: Source)
    requires !HasCfs(d, s.id) && !Buildable(t, d, s) && (if s.uki.None? then m == d else BuildLeft(t, d, s, m))
    ensures StageLeft(t, d, s, m)
  {
    assert m.(roles := d.roles, roleTmps := d.roleTmps) == m;
  }

  lemma {:induction false} StageOutcome(t: Tools, d: Disk, s: Source)
    requires ToolsOk(t) && Inv(t, d) && SourceOk(t, s)
    ensures (Stage(t, d, s).ok <==> Stageable(t, d, s)) && StageLeft(t, d, s, Do(d, Stage(t, d, s)))
  {
    if HasCfs(d, s.id) {
      RestageWedged(t, d, s);
    } else {
      var p := Materialize(t, d, s);
      var m := Do(d, p);
      MaterializeOutcome(t, d, s);
      if p.ok {
        SetRoleEffect(t, m, Staging, s.id);
        RunConcat(d, p.ops, SetRole(m, Staging, s.id));
        MarkedOutcome(t, d, m, s);
      } else {
        UnmarkedOutcome(t, d, m, s);
      }
    }
  }

  // ------------------------------------------------------------------ collecting

  /** Exactly what the role links hold is left: the deployments, and the objects their holders have. */
  ghost predicate Collected(d: Disk, roles: map<Role, Id>, r: Disk) {
    var e := d.(roles := roles);
    && r.dirs == HeldDirs(e)
    && (forall n :: n in r.shared <==> n in d.shared && n.Obj? && Reachable(e, n.digest))
    && (forall g | Obj(g) in r.shared :: ObjBytes(r, g) == ObjBytes(d, g) && IsSealed(r, g) == IsSealed(d, g))
  }

  lemma {:induction false} HeldAlike(d: Disk, e: Disk)
    requires e.dirs == d.dirs
    ensures HeldDirs(d.(roles := e.roles)) == HeldDirs(e)
    ensures forall g :: Reachable(d.(roles := e.roles), g) <==> Reachable(e, g)
  {
    var x := d.(roles := e.roles);
    forall g ensures Reachable(x, g) <==> Reachable(e, g) {
      if Reachable(x, g) {
        var id :| id in x.dirs && RoleHeld(x.roles, id) && g in x.dirs[id].holder;
        assert id in e.dirs && RoleHeld(e.roles, id);
      }
      if Reachable(e, g) {
        var id :| id in e.dirs && RoleHeld(e.roles, id) && g in e.dirs[id].holder;
        assert id in x.dirs && RoleHeld(x.roles, id);
      }
    }
  }

  lemma {:induction false} StoredAlike(d: Disk, e: Disk)
    requires e.shared == d.shared && e.inodes == d.inodes
    ensures forall g :: ObjBytes(e, g) == ObjBytes(d, g) && IsSealed(e, g) == IsSealed(d, g)
  {
  }

  lemma {:induction false} CollectedSame(d: Disk, e: Disk, r: Disk)
    requires e.dirs == d.dirs && e.shared == d.shared && e.inodes == d.inodes && Collected(e, e.roles, r)
    ensures Collected(d, e.roles, r)
  {
    assert e.(roles := e.roles) == e;
    HeldAlike(d, e);
    StoredAlike(d, e);
  }

  lemma {:induction false} CollectedFrom(t: Tools, d: Disk, e: Disk)
    requires ToolsOk(t) && Inv(t, e) && e.dirs == d.dirs && e.shared == d.shared && e.inodes == d.inodes
    ensures var r := Run(e, Gc(t, e));
            Collected(d, e.roles, r) && r.roles == e.roles && r.roleTmps == e.roleTmps && r.esp == e.esp
  {
    GcIsReachability(t, e);
    assert e.(roles := e.roles) == e;
    CollectedSame(d, e, Run(e, Gc(t, e)));
  }

  lemma {:induction false} GcOutcome(t: Tools, d: Disk)
    requires ToolsOk(t) && Inv(t, d)
    ensures var r := Run(d, Gc(t, d));
            && Collected(d, d.roles, r) && |Stale(t, d)| == |d.dirs| - |r.dirs|
            && r.roles == d.roles && r.roleTmps == d.roleTmps && r.esp == d.esp && r.limine == d.limine
  {
    CollectedFrom(t, d, d);
    StaleGo(t, d);
    GcNoLoader(t, d);
    NoLoaderKeeps(d, Gc(t, d));
  }

  // ------------------------------------------------------------------- promoting

  /** The image is on the ESP as current, and what was current there, if the role was set, as fallback. */
  ghost predicate EntriesMoved(d: Disk, image: Image, r: Disk) {
    && CurrentEfi in r.esp && r.esp[CurrentEfi] == image
    && (if Current in d.roles && CurrentEfi in d.esp
        then FallbackEfi in r.esp && r.esp[FallbackEfi] == d.esp[CurrentEfi] else SameEntry(d, r, FallbackEfi))
  }

  /** What promoting leaves. */
  ghost predicate PromoteLeft(d: Disk, id: Id, r: Disk) {
    if Get(d, Current) == Some(id) then r == d.(roles := d.roles - {Staging})
    else match Staged(d, id)
      case None => r == d
      case Some(image) =>
        && EntriesMoved(d, image, r) && r.roles == Promoted(d.roles, id) && Collected(d, r.roles, r)
        && r.limine == if d.dirs[id].loader.Some? then d.dirs[id].loader else d.limine
  }

  /** `promote` returns if the image is current already or has its UKI. */
  lemma {:induction false} PromoteOutcome(t: Tools, d: Disk, id: Id)
    requires ToolsOk(t) && Inv(t, d)
    ensures var p := Promote(t, d, id);
            (p.ok <==> Get(d, Current) == Some(id) || Staged(d, id).Some?) && PromoteLeft(d, id, Do(d, p))
  {
    if Get(d, Current) == Some(id) {
      ClearRoleEffect(d, Staging);
    } else if Staged(d, id).Some? {
      PromoteEffect(t, d, id);
      PromoteRefreshesLoader(t, d, id);
      PromotedCollects(t, d, id);
    }
  }

  lemma {:induction false} PromotedCollects(t: Tools, d: Disk, id: Id)
    requires ToolsOk(t) && Inv(t, d) && Get(d, Current) != Some(id) && Staged(d, id).Some?
    ensures Collected(d, Promoted(d.roles, id), Do(d, Promote(t, d, id)))
  {
    Flipped(t, d, id);
    FlipThenGc(t, d, id);
    CollectedFrom(t, d, Run(d, Flip(d, id, Staged(d, id).value)));
  }

  // ----------------------------------------------------------------- rolling back

  predicate CanRollBack(d: Disk) { Fallback in d.roles && CurrentEfi in d.esp && FallbackEfi in d.esp }

  /** Entries and roles have changed places; a host without a current role has none as fallback to set. */
  ghost predicate TurnedBack(d: Disk, r: Disk)
    requires CanRollBack(d)
  {
    && SameDeployments(d, r) && r.limine == d.limine
    && r.esp == (d.esp - {SwapTmp})[CurrentEfi := d.esp[FallbackEfi]][FallbackEfi := d.esp[CurrentEfi]]
    && r.roles == if Current in d.roles then d.roles[Current := d.roles[Fallback]][Fallback := d.roles[Current]]
                  else d.roles[Current := d.roles[Fallback]]
  }

  lemma {:induction false} SwappedAll(esp: map<EspName, Image>)
    requires CurrentEfi in esp && FallbackEfi in esp
    ensures Swapped(esp, 3) == (esp - {SwapTmp})[CurrentEfi := esp[FallbackEfi]][FallbackEfi := esp[CurrentEfi]]
  {
  }

  /** `rollback` returns if there is something to roll back to, and else changes nothing. */
  lemma {:induction false} RollbackOutcome(t: Tools, d: Disk)
    ensures var p := Rollback(d);
            (p.ok <==> CanRollBack(d)) && (if p.ok then TurnedBack(d, Do(d, p)) else Do(d, p) == d)
  {
    if CanRollBack(d) {
      var m := d.(esp := Swapped(d.esp, 3));
      var one := SetRole(d, Current, d.roles[Fallback]);
      SwapThree(d);
      SwappedAll(d.esp);
      assert one == SetRole(m, Current, d.roles[Fallback]);
      RunConcat(d, SwapEsp(d), one);
      SetRoleEffect(t, m, Current, d.roles[Fallback]);
      if Current in d.roles {
        var n := Run(m, one);
        var two := SetRole(d, Fallback, d.roles[Current]);
        assert two == SetRole(n, Fallback, d.roles[Current]);
        SetRoleEffect(t, n, Fallback, d.roles[Current]);
        RunConcat(d, SwapEsp(d) + one, two);
      } else {
        assert Rollback(d).ops == SwapEsp(d) + one;
      }
    }
  }

  // ------------------------------------------------------------------- installing

  ghost predicate Installable(t: Tools, d: Disk, s: Source) { s.id !in d.dirs && Buildable(t, d, s) }

  /** What installing leaves: a built deployment, current on the ESP and by role; or as far as the build came. */
  ghost predicate InstallLeft(t: Tools, d: Disk, s: Source, r: Disk) {
    if s.id in d.dirs || s.uki.None? then r == d
    else if Buildable(t, d, s) then
      && r.roles == d.roles[Current := s.id]
      && r.esp == (d.esp - {CurrentTmp})[CurrentEfi := s.uki.value]
      && BuildLeft(t, d, s, r.(roles := d.roles, roleTmps := d.roleTmps, esp := d.esp))
    else BuildLeft(t, d, s, r)
  }

  lemma {:induction false} TailOutcome(t: Tools, n: Disk, image: Image)
    ensures Run(n, InstallTail(n, image))
         == n.(esp := (n.esp - {CurrentTmp})[CurrentEfi := image], roles := n.roles[Current := image.id],
               roleTmps := n.roleTmps - {Current})
  {
    var m := Run(n, CopyEsp(CurrentEfi, image));
    CopyEspEffect(n, CurrentEfi, image);
    SetRoleEffect(t, m, Current, image.id);
    assert SetRole(m, Current, image.id) == SetRole(n, Current, image.id);
    RunConcat(n, CopyEsp(CurrentEfi, image), SetRole(n, Current, image.id));
  }

  lemma {:induction false} InstalledLeft(t: Tools, d: Disk, n: Disk, s: Source)
    requires s.id !in d.dirs && SourceOk(t, s) && Buildable(t, d, s) && BuildLeft(t, d, s, n)
    ensures InstallLeft(t, d, s, n.(esp := (n.esp - {CurrentTmp})[CurrentEfi := s.uki.value],
                                    roles := n.roles[Current := s.id], roleTmps := n.roleTmps - {Current}))
  {
    var r := n.(esp := (n.esp - {CurrentTmp})[CurrentEfi := s.uki.value],
                roles := n.roles[Current := s.id], roleTmps := n.roleTmps - {Current});
    assert r.(roles := d.roles, roleTmps := d.roleTmps, esp := d.esp) == n;
  }

  lemma {:induction false} InstallOutcome(t: Tools, d: Disk, s: Source)
    requires ToolsOk(t) && Inv(t, d) && SourceOk(t, s)
    ensures var p := Install(t, d, s);
            (p.ok <==> Installable(t, d, s)) && InstallLeft(t, d, s, Do(d, p))
  {
    if s.id !in d.dirs {
      var p := Materialize(t, d, s);
      var n := Do(d, p);
      MaterializeOutcome(t, d, s);
      InstallOps(t, d, s);
      if p.ok {
        TailOutcome(t, n, s.uki.value);
        InstalledLeft(t, d, n, s);
        RunConcat(d, p.ops, InstallTail(n, s.uki.value));
      }
    }
  }

  // ------------------------------------------------------------------- deploying

  /** What it takes to deploy: the image is current, or is there with its UKI, or can be built. */
  ghost predicate Deployable(t: Tools, d: Disk, s: Source) {
    || Get(d, Current) == Some(s.id)
    || (if HasCfs(d, s.id) then Staged(d, s.id).Some? else Buildable(t, d, s))
  }

  /** The image a deploy puts on the ESP: a reused deployment's own, or the artifact's. */
  function DeployedImage(d: Disk, s: Source): Option<Image> {
    if HasCfs(d, s.id) then Staged(d, s.id) else s.uki
  }

  /** Only what a role link names is left, and of the store only what a deployment holds. */
  ghost predicate Tidy(d: Disk) {
    && (forall id | id in d.dirs :: RoleHeld(d.roles, id))
    && (forall n | n in d.shared :: n.Obj? && Reachable(d, n.digest))
  }

  /** The deployments after a deploy: those a role names, as they were, and the new one. */
  ghost predicate DirsLeft(t: Tools, d: Disk, s: Source, r: Disk) {
    && r.dirs.Keys == (set id | id in d.dirs.Keys + {s.id} && RoleHeld(r.roles, id))
    && s.id in r.dirs && (forall id | id in r.dirs && id != s.id :: r.dirs[id] == d.dirs[id])
    && (if HasCfs(d, s.id) then r.dirs[s.id] == d.dirs[s.id] else BuiltDir(t, r, s))
  }

  /** What deploying leaves. */
  ghost predicate DeployLeft(t: Tools, d: Disk, s: Source, r: Disk) {
    if Get(d, Current) == Some(s.id) then r == d
    else if Deployable(t, d, s) then
      && DeployedImage(d, s).Some? && EntriesMoved(d, DeployedImage(d, s).value, r)
      && r.roles == Promoted(d.roles, s.id) && DirsLeft(t, d, s, r) && Tidy(r)
      && r.limine == if r.dirs[s.id].loader.Some? then r.dirs[s.id].loader else d.limine
    else StageLeft(t, d, s, r)
  }

  lemma {:induction false} CollectedIsTidy(d: Disk, r: Disk)
    requires Collected(d, r.roles, r)
    ensures Tidy(r)
  {
    var e := d.(roles := r.roles);
    forall n | n in r.shared ensures n.Obj? && Reachable(r, n.digest) {
      var id :| id in e.dirs && RoleHeld(e.roles, id) && n.digest in e.dirs[id].holder;
      assert id in r.dirs && r.dirs[id] == e.dirs[id];
    }
  }

  lemma {:induction false} PresentAfter(t: Tools, n: Disk, r: Disk, s: Source)
    requires Inv(t, r) && BuiltDir(t, n, s) && s.id in r.dirs && r.dirs[s.id] == n.dirs[s.id]
    requires forall x :: x in r.shared ==> x in n.shared
    ensures BuiltDir(t, r, s)
  {
    forall g ensures g in Present(r, t.refs(s.cfs)) <==> g in r.dirs[s.id].holder {
      if g in Present(r, t.refs(s.cfs)) { assert g in Present(n, t.refs(s.cfs)); }
      if g in r.dirs[s.id].holder { assert g in Present(n, t.refs(s.cfs)); }
    }
  }

  lemma {:induction false} SameOthers(d: Disk, n: Disk, id: Id)
    requires n.dirs - {id} == d.dirs - {id}
    ensures forall i | i != id :: (i in n.dirs <==> i in d.dirs) && (i in d.dirs ==> n.dirs[i] == d.dirs[i])
  {
    forall i | i != id ensures (i in n.dirs <==> i in d.dirs) && (i in d.dirs ==> n.dirs[i] == d.dirs[i]) {
      assert i in n.dirs <==> i in n.dirs - {id};
      assert i in d.dirs <==> i in d.dirs - {id};
      if i in d.dirs { assert (n.dirs - {id})[i] == (d.dirs - {id})[i]; }
    }
  }

  lemma {:induction false} DirsCollected(t: Tools, d: Disk, n: Disk, s: Source, r: Disk)
    requires n.dirs - {s.id} == d.dirs - {s.id} && s.id in n.dirs && RoleHeld(r.roles, s.id)
    requires Collected(n, r.roles, r) && Inv(t, r)
    requires if HasCfs(d, s.id) then n.dirs == d.dirs else BuiltDir(t, n, s)
    ensures DirsLeft(t, d, s, r)
  {
    SameOthers(d, n, s.id);
    assert forall id :: id in r.dirs <==> id in n.dirs && RoleHeld(r.roles, id);
    assert s.id in r.dirs && r.dirs[s.id] == n.dirs[s.id];
    if !HasCfs(d, s.id) { PresentAfter(t, n, r, s); }
  }

  lemma {:induction false} PromotedFromStaged(roles: map<Role, Id>, id: Id)
    ensures Promoted(roles[Staging := id], id) == Promoted(roles, id)
  {
    var a, b := Promoted(roles[Staging := id], id), Promoted(roles, id);
    forall k: Role ensures (k in a <==> k in b) && (k in a ==> a[k] == b[k]) {
      match k
      case Current =>
      case Fallback =>
      case Staging =>
    }
  }

  /** What a stage that returned hands on to the promotion. */
  lemma {:induction false} StagedOn(t: Tools, d: Disk, s: Source, n: Disk)
    requires Deployable(t, d, s) && Get(d, Current) != Some(s.id) && StageLeft(t, d, s, n)
    ensures n.roles == d.roles[Staging := s.id] && n.esp == d.esp && n.limine == d.limine
    ensures n.dirs - {s.id} == d.dirs - {s.id} && s.id in n.dirs
    ensures if HasCfs(d, s.id) then n.dirs == d.dirs else BuiltDir(t, n, s)
    ensures Staged(n, s.id) == DeployedImage(d, s) && Staged(n, s.id).Some?
  {
  }

  lemma {:induction false} PromotedOn(t: Tools, d: Disk, s: Source, n: Disk, r: Disk)
    requires Deployable(t, d, s) && Get(d, Current) != Some(s.id) && StageLeft(t, d, s, n)
    requires PromoteLeft(n, s.id, r) && Inv(t, r)
    ensures DeployLeft(t, d, s, r)
  {
    StagedOn(t, d, s, n);
    PromotedFromStaged(d.roles, s.id);
    assert r.roles == Promoted(d.roles, s.id) && NamedBy(r.roles, Current, s.id);
    DirsCollected(t, d, n, s, r);
    CollectedIsTidy(n, r);
    assert r.dirs[s.id] == n.dirs[s.id];
  }

  lemma {:induction false} PromotesNot(t: Tools, d: Disk, s: Source, n: Disk)
    requires !Deployable(t, d, s) && Stageable(t, d, s) && StageLeft(t, d, s, n)
    ensures Get(n, Current) != Some(s.id) && Staged(n, s.id).None?
  {
  }

  lemma {:induction false} DeployRuns(t: Tools, d: Disk, s: Source, n: Disk)
    requires Get(d, Current) != Some(s.id) && n == Do(d, Stage(t, d, s))
    ensures var p, q := Stage(t, d, s), Promote(t, n, s.id);
            && Deploy(t, d, s).ok == (p.ok && q.ok)
            && Do(d, Deploy(t, d, s)) == if p.ok then Do(n, q) else n
  {
    RunConcat(d, Stage(t, d, s).ops, Promote(t, n, s.id).ops);
  }

  /** From the staged disk on. */
  lemma {:induction false} DeployEnds(t: Tools, d: Disk, s: Source, n: Disk)
    requires ToolsOk(t) && Inv(t, n) && Get(d, Current) != Some(s.id) && Stageable(t, d, s) && StageLeft(t, d, s, n)
    ensures var q := Promote(t, n, s.id);
            (q.ok <==> Deployable(t, d, s)) && DeployLeft(t, d, s, Do(n, q))
  {
    PromoteOutcome(t, n, s.id);
    PromoteLegal(t, n, s.id);
    LegalKeeps(t, n, Promote(t, n, s.id).ops);
    if Deployable(t, d, s) {
      StagedOn(t, d, s, n);
      PromotedOn(t, d, s, n, Do(n, Promote(t, n, s.id)));
    } else {
      PromotesNot(t, d, s, n);
    }
  }

  /** `do_deploy` returns exactly then; an image that is current already is left as it is, and so is everything. */
  lemma {:induction false} DeployOutcome(t: Tools, d: Disk, s: Source)
    requires ToolsOk(t) && Inv(t, d) && SourceOk(t, s)
    ensures var p := Deploy(t, d, s);
            (p.ok <==> Deployable(t, d, s)) && DeployLeft(t, d, s, Do(d, p))
  {
    if Get(d, Current) != Some(s.id) {
      var n := Do(d, Stage(t, d, s));
      StageOutcome(t, d, s);
      StageLegal(t, d, s);
      LegalKeeps(t, d, Stage(t, d, s).ops);
      DeployRuns(t, d, s, n);
      if Stageable(t, d, s) { DeployEnds(t, d, s, n); }
    }
  }

  // ------------------------------------------------------------------ any command

  /** When a command returns. */
  ghost predicate Returns(t: Tools, d: Disk, c: Command) {
    match c
    case InstallCmd(s) => Installable(t, d, s)
    case DeployCmd(s) => Deployable(t, d, s)
    case RollbackCmd => CanRollBack(d)
    case GcCmd => true
  }

  /** What a command, run to its end, leaves. */
  ghost predicate Leaves(t: Tools, d: Disk, c: Command, r: Disk) {
    match c
    case InstallCmd(s) => InstallLeft(t, d, s, r)
    case DeployCmd(s) => DeployLeft(t, d, s, r)
    case RollbackCmd => if CanRollBack(d) then TurnedBack(d, r) else r == d
    case GcCmd =>
      && Collected(d, d.roles, r)
      && r.roles == d.roles && r.roleTmps == d.roleTmps && r.esp == d.esp && r.limine == d.limine
  }

  lemma {:induction false} CommandOutcome(t: Tools, d: Disk, c: Command)
    requires ToolsOk(t) && Inv(t, d) && CommandOk(t, c)
    ensures var p := PlanOf(t, d, c);
            (p.ok <==> Returns(t, d, c)) && Leaves(t, d, c, Do(d, p))
  {
    match c
    case InstallCmd(s) => InstallOutcome(t, d, s);
    case DeployCmd(s) => DeployOutcome(t, d, s);
    case RollbackCmd => RollbackOutcome(t, d);
    case GcCmd => GcOutcome(t, d);
  }

  lemma {:induction false} FinishedFrom(t: Tools, h: Disk, e: Event)
    requires ToolsOk(t) && Inv(t, h) && CommandOk(t, e.command) && e.stop >= |PlanOf(t, h, e.command).ops|
    ensures Leaves(t, h, e.command, Run(h, Until(PlanOf(t, h, e.command).ops, e.stop)))
  {
    CommandOutcome(t, h, e.command);
    assert Until(PlanOf(t, h, e.command).ops, e.stop) == PlanOf(t, h, e.command).ops;
  }

  /** In a history too: a last command that is not interrupted leaves what it is for. */
  lemma {:induction false} FinishedEvent(t: Tools, d: Disk, events: seq<Event>, e: Event)
    requires ToolsOk(t) && Inv(t, d) && CommandOk(t, e.command) && forall x | x in events :: CommandOk(t, x.command)
    requires e.stop >= |PlanOf(t, History(t, d, events), e.command).ops|
    ensures Leaves(t, History(t, d, events), e.command, History(t, d, events + [e]))
  {
    HistoryKeeps(t, d, events);
    HistoryAppend(t, d, events, e);
    FinishedFrom(t, History(t, d, events), e);
  }

  /**
   After a deploy that returned, the current role names the image, and so does the current entry; unless the role
   had named it before and the entry had not: then nothing has been done about it.
   */
  lemma {:induction false} DeployNames(t: Tools, d: Disk, s: Source, r: Disk)
    requires Inv(t, d) && SourceOk(t, s) && Deployable(t, d, s) && DeployLeft(t, d, s, r)
    ensures Get(r, Current) == Some(s.id)
    ensures CurrentEfi in r.esp && r.esp[CurrentEfi].id == s.id <==>
              Get(d, Current) != Some(s.id) || (CurrentEfi in d.esp && d.esp[CurrentEfi].id == s.id)
  {
    if Get(d, Current) != Some(s.id) && HasCfs(d, s.id) { assert Committed(t, s.id, d.dirs[s.id]); }
  }

  /** After an installation that returned both name it. */
  lemma {:induction false} InstallNames(t: Tools, d: Disk, s: Source, r: Disk)
    requires SourceOk(t, s) && Installable(t, d, s) && InstallLeft(t, d, s, r)
    ensures Get(r, Current) == Some(s.id) && CurrentEfi in r.esp && r.esp[CurrentEfi].id == s.id
  {
  }
}
