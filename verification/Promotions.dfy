/**
 A promotion, operation by operation: the two boot entries and the role links after each of them, from any disk
 with a current deployment. Every later claim about a promotion that stopped is read off from this.
 */
module Promotions {
  import opened Filesystem
  import opened Lifecycle
  import opened Safety
  import opened Rollbacks

  // ---------------------------------------------------------- the positions

  /** The operations after which the fallback entry, and then the current entry, has been renamed. */
  const FALLBACK_COPIED := 2
  const WINDOW_START := 4

  function EspEnd(d: Disk, id: Id): nat { WINDOW_START + |LimineOps(d, id)| }

  /** How many operations `set_role` takes. */
  function SwitchLength(d: Disk, role: Role): nat { if role in d.roleTmps then 3 else 2 }

  /** The operations up to and including the rename of the `fallback` role, of the `current` role, and all. */
  function Demoted(d: Disk, id: Id): nat { EspEnd(d, id) + SwitchLength(d, Fallback) }

  function WindowEnd(d: Disk, id: Id): nat { Demoted(d, id) + SwitchLength(d, Current) }

  function FlipEnd(d: Disk, id: Id): nat { WindowEnd(d, id) + |ClearRole(d, Staging)| }

  ghost predicate SameEntry(d: Disk, m: Disk, f: EspName) {
    (f in m.esp <==> f in d.esp) && (f in d.esp ==> m.esp[f] == d.esp[f])
  }

  /** The two boot entries after `k` operations. */
  ghost predicate EntriesAt(d: Disk, m: Disk, image: Image, k: nat)
    requires CurrentEfi in d.esp
  {
    && CurrentEfi in m.esp && m.esp[CurrentEfi] == (if k < WINDOW_START then d.esp[CurrentEfi] else image)
    && (if k < FALLBACK_COPIED then SameEntry(d, m, FallbackEfi)
        else FallbackEfi in m.esp && m.esp[FallbackEfi] == d.esp[CurrentEfi])
  }

  /** The role links after `k` operations. */
  function RolesAt(d: Disk, id: Id, k: nat): map<Role, Id>
    requires Current in d.roles
  {
    if k < Demoted(d, id) then d.roles
    else if k < WindowEnd(d, id) then d.roles[Fallback := d.roles[Current]]
    else if k < FlipEnd(d, id) then d.roles[Fallback := d.roles[Current]][Current := id]
    else Promoted(d.roles, id)
  }

  // ------------------------------------------------------------ the ESP half

  lemma {:induction false} CopyPrefix(d: Disk, target: EspName, image: Image, i: nat)
    requires (target == CurrentEfi || target == FallbackEfi) && i <= 2
    ensures var m := Run(d, CopyEsp(target, image)[..i]);
            && OnlyEsp(d, m)
            && SameEntry(d, m, if target == CurrentEfi then FallbackEfi else CurrentEfi)
            && (if i < 2 then SameEntry(d, m, target) else target in m.esp && m.esp[target] == image)
  {
    var ops := CopyEsp(target, image);
    if i == 0 {
      assert ops[..i] == [];
    } else if i == 1 {
      assert ops[..i] == [ops[0]];
      RunOne(d, ops[0]);
    } else {
      assert ops[..i] == ops;
      CopyEspEffect(d, target, image);
    }
  }

  lemma {:induction false} LiminePrefix(d: Disk, n: Disk, id: Id, i: nat)
    requires i <= |LimineOps(d, id)|
    ensures OnlyEsp(n, Run(n, LimineOps(d, id)[..i])) && Run(n, LimineOps(d, id)[..i]).esp == n.esp
  {
    var ops := LimineOps(d, id);
    if i == 0 {
      assert ops[..i] == [];
    } else if i == 1 {
      assert ops[..i] == [ops[0]];
      RunOne(n, ops[0]);
    } else {
      assert ops[..i] == ops;
      LimineOpsEffect(d, n, id);
    }
  }

  lemma {:induction false} EntriesPrefix(d: Disk, image: Image, k: nat)
    requires CurrentEfi in d.esp && k <= WINDOW_START
    ensures var m := Run(d, (CopyEsp(FallbackEfi, d.esp[CurrentEfi]) + CopyEsp(CurrentEfi, image))[..k]);
            OnlyEsp(d, m) && EntriesAt(d, m, image, k)
  {
    var a, b := CopyEsp(FallbackEfi, d.esp[CurrentEfi]), CopyEsp(CurrentEfi, image);
    PrefixOfTwo(a, b, k);
    if k <= FALLBACK_COPIED {
      CopyPrefix(d, FallbackEfi, d.esp[CurrentEfi], k);
    } else {
      var n := Run(d, a);
      CopyEspEffect(d, FallbackEfi, d.esp[CurrentEfi]);
      CopyPrefix(n, CurrentEfi, image, k - 2);
      RunConcat(d, a, b[..k - 2]);
    }
  }

  lemma {:induction false} EspSteps(d: Disk, id: Id, image: Image, k: nat)
    requires Current in d.roles && CurrentEfi in d.esp && k <= EspEnd(d, id)
    ensures k <= |PromoteEsp(d, id, image)| == EspEnd(d, id)
    ensures var m := Run(d, PromoteEsp(d, id, image)[..k]);
            OnlyEsp(d, m) && EntriesAt(d, m, image, k)
  {
    var a, c := CopyEsp(FallbackEfi, d.esp[CurrentEfi]) + CopyEsp(CurrentEfi, image), LimineOps(d, id);
    assert PromoteEsp(d, id, image) == a + c;
    PrefixOfTwo(a, c, k);
    if k <= WINDOW_START {
      EntriesPrefix(d, image, k);
    } else {
      EntriesPrefix(d, image, WINDOW_START);
      assert a[..WINDOW_START] == a;
      LiminePrefix(d, Run(d, a), id, k - WINDOW_START);
      RunConcat(d, a, c[..k - WINDOW_START]);
    }
  }

  // ----------------------------------------------------------- the role half

  lemma {:induction false} ClearPrefix(d: Disk, role: Role, j: nat)
    requires j <= |ClearRole(d, role)|
    ensures var m := Run(d, ClearRole(d, role)[..j]);
            OnlyRoles(d, m) && m.roles == if j < |ClearRole(d, role)| then d.roles else d.roles - {role}
  {
    if j == |ClearRole(d, role)| {
      assert ClearRole(d, role)[..j] == ClearRole(d, role);
      ClearRoleEffect(d, role);
    } else {
      assert ClearRole(d, role)[..j] == [];
    }
  }

  lemma {:induction false} RoleSteps(t: Tools, e: Disk, id: Id, k: nat)
    requires Current in e.roles && EspEnd(e, id) <= k <= FlipEnd(e, id)
    ensures |PromoteRoles(e, id)| == FlipEnd(e, id) - EspEnd(e, id)
    ensures var m := Run(e, PromoteRoles(e, id)[..k - EspEnd(e, id)]);
            SameDeployments(e, m) && m.esp == e.esp && m.roles == RolesAt(e, id, k)
  {
    var was := e.roles[Current];
    var a, c := SetRole(e, Fallback, was) + SetRole(e, Current, id), ClearRole(e, Staging);
    var j := k - EspEnd(e, id);
    assert PromoteRoles(e, id) == a + c;
    PrefixOfTwo(a, c, j);
    if j <= |a| {
      TwoSets(t, e, Fallback, was, Current, id, j);
    } else {
      var n := Run(e, a);
      assert a[..|a|] == a;
      TwoSets(t, e, Fallback, was, Current, id, |a|);
      assert ClearRole(n, Staging) == c;
      ClearPrefix(n, Staging, j - |a|);
      RunConcat(e, a, c[..j - |a|]);
    }
  }

  // -------------------------------------------------------------- the whole

  lemma {:induction false} FlipLength(d: Disk, id: Id, image: Image)
    requires Current in d.roles && CurrentEfi in d.esp
    ensures |PromoteEsp(d, id, image)| == EspEnd(d, id)
    ensures |PromoteRoles(d, id)| == FlipEnd(d, id) - EspEnd(d, id)
    ensures |Flip(d, id, image)| == FlipEnd(d, id)
  {
  }

  ghost predicate SteppedTo(d: Disk, m: Disk, id: Id, image: Image, k: nat)
    requires Current in d.roles && CurrentEfi in d.esp
  {
    EntriesAt(d, m, image, k) && m.roles == RolesAt(d, id, k)
  }

  /** From the end of the ESP half on, as from the start. */
  lemma {:induction false} SamePositions(d: Disk, e: Disk, id: Id)
    requires OnlyEsp(d, e) && Current in d.roles
    ensures PromoteRoles(e, id) == PromoteRoles(d, id) && EspEnd(e, id) == EspEnd(d, id)
    ensures FlipEnd(e, id) == FlipEnd(d, id) && forall k: nat :: RolesAt(e, id, k) == RolesAt(d, id, k)
  {
  }

  lemma {:induction false} RoleHalf(t: Tools, d: Disk, id: Id, image: Image, k: nat)
    requires Current in d.roles && CurrentEfi in d.esp && EspEnd(d, id) <= k <= FlipEnd(d, id)
    ensures |PromoteRoles(d, id)| == FlipEnd(d, id) - EspEnd(d, id)
    ensures var m := Run(d, PromoteEsp(d, id, image) + PromoteRoles(d, id)[..k - EspEnd(d, id)]);
            SameDeployments(d, m) && SteppedTo(d, m, id, image, k)
  {
    var up := PromoteEsp(d, id, image);
    var e := Run(d, up);
    FlipLength(d, id, image);
    EspSteps(d, id, image, EspEnd(d, id));
    assert up[..|up|] == up;
    SamePositions(d, e, id);
    RoleSteps(t, e, id, k);
    RunConcat(d, up, PromoteRoles(d, id)[..k - EspEnd(d, id)]);
  }

  lemma {:induction false} FlipSteps(t: Tools, d: Disk, id: Id, image: Image, k: nat)
    requires Current in d.roles && CurrentEfi in d.esp && k <= FlipEnd(d, id)
    ensures |Flip(d, id, image)| == FlipEnd(d, id)
    ensures var m := Run(d, Flip(d, id, image)[..k]);
            SameDeployments(d, m) && SteppedTo(d, m, id, image, k)
  {
    FlipLength(d, id, image);
    PrefixOfTwo(PromoteEsp(d, id, image), PromoteRoles(d, id), k);
    if k <= EspEnd(d, id) {
      EspSteps(d, id, image, k);
    } else {
      RoleHalf(t, d, id, image, k);
    }
  }

  lemma {:induction false} FlipDone(t: Tools, d: Disk, id: Id, image: Image)
    requires Inv(t, d) && Current in d.roles && CurrentEfi in d.esp
    ensures var e := Run(d, Flip(d, id, image));
            Inv(t, e) && SteppedTo(d, e, id, image, FlipEnd(d, id))
  {
    var flip := Flip(d, id, image);
    FlipSteps(t, d, id, image, FlipEnd(d, id));
    assert flip[..|flip|] == flip;
    FlipLegal(t, d, id, image);
  }

  lemma {:induction false} GcPart(t: Tools, d: Disk, flip: seq<Op>, j: nat)
    requires Inv(t, Run(d, flip)) && j <= |Gc(t, Run(d, flip))|
    ensures var e := Run(d, flip);
            var m := Run(d, flip + Gc(t, e)[..j]);
            m.roles == e.roles && m.esp == e.esp
  {
    var e := Run(d, flip);
    GcRemoves(t, e);
    RemovalsKeepRoles(e, Gc(t, e)[..j]);
    RunConcat(d, flip, Gc(t, e)[..j]);
  }

  lemma {:induction false} SteppedPast(d: Disk, e: Disk, m: Disk, id: Id, image: Image, k: nat)
    requires Current in d.roles && CurrentEfi in d.esp && SteppedTo(d, e, id, image, FlipEnd(d, id))
    requires m.roles == e.roles && m.esp == e.esp && k >= FlipEnd(d, id)
    ensures SteppedTo(d, m, id, image, k)
  {
  }

  /** The disk after `k` operations of a promotion over an existing current, from any disk. */
  lemma {:induction false} PromoteSteps(t: Tools, d: Disk, id: Id, k: nat)
    requires Inv(t, d) && Current in d.roles && CurrentEfi in d.esp && d.roles[Current] != id && Staged(d, id).Some?
    requires k <= |Promote(t, d, id).ops|
    ensures FlipEnd(d, id) <= |Promote(t, d, id).ops|
    ensures var m := Run(d, Promote(t, d, id).ops[..k]);
            SteppedTo(d, m, id, Staged(d, id).value, k) && (k <= FlipEnd(d, id) ==> SameDeployments(d, m))
  {
    var image := Staged(d, id).value;
    var flip := Flip(d, id, image);
    var gc := Gc(t, Run(d, flip));
    FlipLength(d, id, image);
    PrefixOfTwo(flip, gc, k);
    if k <= FlipEnd(d, id) {
      FlipSteps(t, d, id, image, k);
    } else {
      FlipDone(t, d, id, image);
      GcPart(t, d, flip, k - FlipEnd(d, id));
      SteppedPast(d, Run(d, flip), Run(d, flip + gc[..k - FlipEnd(d, id)]), id, image, k);
    }
  }
}
