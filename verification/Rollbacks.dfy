/**
 Rollback, one operation at a time: what every crash leaves, and exactly when the fallback is at risk.
 */
module Rollbacks {
  import opened Filesystem
  import opened Objects
  import opened Lifecycle
  import opened Safety

  /** `d` but for the ESP and the role links. */
  ghost predicate SameDeployments(d: Disk, r: Disk) {
    r.dirs == d.dirs && r.shared == d.shared && r.inodes == d.inodes && r.next == d.next
  }

  ghost predicate OnlyRoles(d: Disk, r: Disk) {
    SameDeployments(d, r) && r.esp == d.esp && r.limine == d.limine && r.limineTmp == d.limineTmp
  }

  lemma {:induction false} SwitchPrefix(d: Disk, role: Role, id: Id, j: nat)
    requires j <= 2
    ensures var r := Run(d, [SymlinkRoleTmp(role, id), RenameRole(role)][..j]);
            OnlyRoles(d, r) && r.roles == if j == 2 then d.roles[role := id] else d.roles
  {
    var a, b := SymlinkRoleTmp(role, id), RenameRole(role);
    assert [a, b][..j] == if j == 0 then [] else if j == 1 then [a] else [a, b];
    RunOne(d, a);
    RunTwo(d, a, b);
  }

  /** A role link switches at the last operation of `set_role`, and at no other. */
  lemma {:induction false} SetRolePrefix(d: Disk, role: Role, id: Id, j: nat)
    requires j <= |SetRole(d, role, id)|
    ensures var r := Run(d, SetRole(d, role, id)[..j]);
            OnlyRoles(d, r) && r.roles == if j == |SetRole(d, role, id)| then d.roles[role := id] else d.roles
  {
    var ops := SetRole(d, role, id);
    var tail := [SymlinkRoleTmp(role, id), RenameRole(role)];
    if role in d.roleTmps {
      var u := UnlinkRoleTmp(role);
      if j == 0 {
        assert ops[..j] == [];
      } else {
        assert ops[..j] == [u] + tail[..j - 1];
        RunConcat(d, [u], tail[..j - 1]);
        RunOne(d, u);
        SwitchPrefix(Apply(d, u), role, id, j - 1);
      }
    } else {
      assert ops == tail;
      SwitchPrefix(d, role, id, j);
    }
  }

  /** The ESP after `k` operations of the swap. */
  ghost function Swapped(esp: map<EspName, Image>, k: nat): map<EspName, Image>
    requires CurrentEfi in esp && FallbackEfi in esp
  {
    if k == 0 then esp
    else if k == 1 then esp[SwapTmp := esp[CurrentEfi]]
    else
      var half := (esp[SwapTmp := esp[CurrentEfi]] - {FallbackEfi})[CurrentEfi := esp[FallbackEfi]];
      if k == 2 then half else (half - {SwapTmp})[FallbackEfi := esp[CurrentEfi]]
  }

  lemma {:induction false} SwapTwo(d: Disk)
    requires CurrentEfi in d.esp && FallbackEfi in d.esp
    ensures Run(d, [WriteEsp(SwapTmp, d.esp[CurrentEfi]), RenameEsp(FallbackEfi, CurrentEfi)])
         == d.(esp := Swapped(d.esp, 2))
  {
    RunTwo(d, WriteEsp(SwapTmp, d.esp[CurrentEfi]), RenameEsp(FallbackEfi, CurrentEfi));
  }

  lemma {:induction false} SwapThree(d: Disk)
    requires CurrentEfi in d.esp && FallbackEfi in d.esp
    ensures Run(d, SwapEsp(d)) == d.(esp := Swapped(d.esp, 3))
  {
    var first := [WriteEsp(SwapTmp, d.esp[CurrentEfi]), RenameEsp(FallbackEfi, CurrentEfi)];
    var last := RenameEsp(SwapTmp, FallbackEfi);
    assert SwapEsp(d) == first + [last];
    RunConcat(d, first, [last]);
    SwapTwo(d);
    RunOne(d.(esp := Swapped(d.esp, 2)), last);
  }

  lemma {:induction false} SwapPrefix(d: Disk, k: nat)
    requires CurrentEfi in d.esp && FallbackEfi in d.esp && k < 3
    ensures Run(d, SwapEsp(d)[..k]) == d.(esp := Swapped(d.esp, k))
  {
    var ops := SwapEsp(d);
    if k == 0 {
      assert ops[..k] == [];
    } else if k == 1 {
      assert ops[..k] == [WriteEsp(SwapTmp, d.esp[CurrentEfi])];
      RunOne(d, WriteEsp(SwapTmp, d.esp[CurrentEfi]));
    } else {
      assert ops[..k] == [WriteEsp(SwapTmp, d.esp[CurrentEfi]), RenameEsp(FallbackEfi, CurrentEfi)];
      SwapTwo(d);
    }
  }

  lemma {:induction false} SecondSet(t: Tools, m: Disk, p: Role, a: Id, q: Role, b: Id, j: nat)
    requires p != q && j <= |SetRole(m, q, b)|
    ensures var two := SetRole(m, q, b);
            var r := Run(m, SetRole(m, p, a) + two[..j]);
            && SameDeployments(m, r) && r.esp == m.esp
            && r.roles == if j < |two| then m.roles[p := a] else m.roles[p := a][q := b]
  {
    var one := SetRole(m, p, a);
    var n := Run(m, one);
    SetRoleEffect(t, m, p, a);
    assert SetRole(n, q, b) == SetRole(m, q, b);
    SetRolePrefix(n, q, b, j);
    RunConcat(m, one, SetRole(m, q, b)[..j]);
  }

  lemma {:induction false} PrefixOfTwo(a: seq<Op>, b: seq<Op>, k: nat)
    requires k <= |a + b|
    ensures (a + b)[..k] == if k <= |a| then a[..k] else a + b[..k - |a|]
  {
  }

  /** Two role links set one after the other: each switches at its last operation. */
  lemma {:induction false} TwoSets(t: Tools, m: Disk, p: Role, a: Id, q: Role, b: Id, j: nat)
    requires p != q && j <= |SetRole(m, p, a) + SetRole(m, q, b)|
    ensures var one, ops := SetRole(m, p, a), SetRole(m, p, a) + SetRole(m, q, b);
            var r := Run(m, ops[..j]);
            && SameDeployments(m, r) && r.esp == m.esp
            && r.roles == if j < |one| then m.roles else if j < |ops| then m.roles[p := a] else m.roles[p := a][q := b]
  {
    var one := SetRole(m, p, a);
    PrefixOfTwo(one, SetRole(m, q, b), j);
    if j <= |one| {
      SetRolePrefix(m, p, a, j);
    } else {
      SecondSet(t, m, p, a, q, b, j - |one|);
    }
  }

  /** Has something to roll back to. */
  predicate Reversible(d: Disk) {
    Current in d.roles && Fallback in d.roles && CurrentEfi in d.esp && FallbackEfi in d.esp
  }

  /** The operations up to and including the flip of the `current` role. */
  function FirstFlip(d: Disk): nat
    requires Reversible(d)
  {
    3 + |SetRole(d, Current, d.roles[Fallback])|
  }

  function Flips(d: Disk): seq<Op>
    requires Reversible(d)
  {
    SetRole(d, Current, d.roles[Fallback]) + SetRole(d, Fallback, d.roles[Current])
  }

  lemma {:induction false} FlipSteps(t: Tools, d: Disk, j: nat)
    requires Reversible(d) && j <= |Flips(d)|
    ensures var m := Run(d, SwapEsp(d) + Flips(d)[..j]);
            && SameDeployments(d, m) && m.esp == Swapped(d.esp, 3)
            && m.roles == if j < |SetRole(d, Current, d.roles[Fallback])| then d.roles
                          else if j < |Flips(d)| then d.roles[Current := d.roles[Fallback]]
                          else d.roles[Current := d.roles[Fallback]][Fallback := d.roles[Current]]
  {
    RunConcat(d, SwapEsp(d), Flips(d)[..j]);
    SwapThree(d);
    var m := d.(esp := Swapped(d.esp, 3));
    assert Flips(d) == SetRole(m, Current, d.roles[Fallback]) + SetRole(m, Fallback, d.roles[Current]);
    TwoSets(t, m, Current, d.roles[Fallback], Fallback, d.roles[Current], j);
  }

  /** The disk after `k` operations of a rollback. */
  lemma {:induction false} RollbackSteps(t: Tools, d: Disk, k: nat)
    requires Reversible(d) && k <= |Rollback(d).ops|
    ensures var m := Run(d, Rollback(d).ops[..k]);
            && SameDeployments(d, m) && m.esp == Swapped(d.esp, k)
            && m.roles == if k < FirstFlip(d) then d.roles
                          else if k < |Rollback(d).ops| then d.roles[Current := d.roles[Fallback]]
                          else d.roles[Current := d.roles[Fallback]][Fallback := d.roles[Current]]
  {
    assert Rollback(d).ops == SwapEsp(d) + Flips(d);
    PrefixOfTwo(SwapEsp(d), Flips(d), k);
    if k < 3 {
      SwapPrefix(d, k);
    } else {
      assert Rollback(d).ops[..k] == SwapEsp(d) + Flips(d)[..k - 3];
      FlipSteps(t, d, k - 3);
    }
  }

  lemma {:induction false} SwappedTwice(esp: map<EspName, Image>)
    requires CurrentEfi in esp && FallbackEfi in esp
    ensures Swapped(Swapped(esp, 3), 3) == esp - {SwapTmp}
  {
  }

  // -------------------------------------------------------------- the claims

  lemma {:induction false} ConsistentFallback(t: Tools, d: Disk)
    requires Consistent(t, d) && Fallback in d.roles
    ensures Reversible(d) && Rollback(d).ok
    ensures d.esp[CurrentEfi].id == d.roles[Current] && d.esp[FallbackEfi].id == d.roles[Fallback]
    ensures ImageOk(t, d, d.esp[CurrentEfi]) && ImageOk(t, d, d.esp[FallbackEfi])
  {
  }

  /** The image is on the ESP, as an entry or as the swap temporary. */
  ghost predicate OnEsp(d: Disk, image: Image) {
    || (CurrentEfi in d.esp && d.esp[CurrentEfi] == image)
    || (FallbackEfi in d.esp && d.esp[FallbackEfi] == image)
    || (SwapTmp in d.esp && d.esp[SwapTmp] == image)
  }

  ghost predicate ImagesSurvive(d: Disk, m: Disk) {
    && (CurrentEfi in d.esp ==> OnEsp(m, d.esp[CurrentEfi]))
    && (FallbackEfi in d.esp ==> OnEsp(m, d.esp[FallbackEfi]))
  }

  lemma {:induction false} SwapLosesNothing(d: Disk, m: Disk, k: nat)
    requires CurrentEfi in d.esp && FallbackEfi in d.esp && m.esp == Swapped(d.esp, k)
    ensures ImagesSurvive(d, m) && CurrentEfi in m.esp
  {
  }

  /** The entries after `k` operations, without the temporary. */
  lemma {:induction false} SwappedEntries(esp: map<EspName, Image>, k: nat)
    requires CurrentEfi in esp && FallbackEfi in esp
    ensures var r := Swapped(esp, k);
            && CurrentEfi in r && r[CurrentEfi] == (if k < 2 then esp[CurrentEfi] else esp[FallbackEfi])
            && (FallbackEfi in r <==> k != 2)
            && (k != 2 ==> r[FallbackEfi] == if k < 2 then esp[FallbackEfi] else esp[CurrentEfi])
  {
  }

  /** The disk after `k` operations, from a consistent one. */
  lemma {:induction false} ConsistentSteps(t: Tools, d: Disk, k: nat)
    requires Consistent(t, d) && Reversible(d) && k <= |Rollback(d).ops|
    ensures var m := Run(d, Rollback(d).ops[..k]);
            && Inv(t, m) && m.dirs == d.dirs && ImagesSurvive(d, m)
            && CurrentEfi in m.esp && m.esp[CurrentEfi] == (if k < 2 then d.esp[CurrentEfi] else d.esp[FallbackEfi])
            && (FallbackEfi in m.esp <==> k != 2)
            && (k != 2 ==> m.esp[FallbackEfi] == if k < 2 then d.esp[FallbackEfi] else d.esp[CurrentEfi])
            && m.roles == if k < FirstFlip(d) then d.roles
                          else if k < |Rollback(d).ops| then d.roles[Current := d.roles[Fallback]]
                          else d.roles[Current := d.roles[Fallback]][Fallback := d.roles[Current]]
  {
    var m := Run(d, Rollback(d).ops[..k]);
    RollbackSteps(t, d, k);
    SwappedEntries(d.esp, k);
    SwapLosesNothing(d, m, k);
  }

  /**
   Stopped after any number of operations, a rollback leaves a current entry, and what it names is complete
   and held by a role; neither of the two images is lost.
   */
  lemma {:induction false} RollbackKeepsCurrent(t: Tools, d: Disk, k: nat)
    requires Consistent(t, d) && k <= |Rollback(d).ops|
    ensures var m := Run(d, Rollback(d).ops[..k]);
            && Inv(t, m) && (CurrentEfi in d.esp ==> CurrentEfi in m.esp) && FileOk(t, m, CurrentEfi)
            && ImagesSurvive(d, m)
  {
    if Fallback in d.roles {
      ConsistentFallback(t, d);
      ConsistentSteps(t, d, k);
    } else {
      assert Rollback(d).ops[..k] == [];
    }
  }

  /**
   The fallback is a different matter. Between the flips of the two roles both name the new current, so the
   image that has just been demoted is held by no role, and the next gc would remove it. That window, and
   a staging role that happens to name the image, are the whole story.
   */
  lemma {:induction false} RollbackSafeExactly(t: Tools, d: Disk, k: nat)
    requires Consistent(t, d) && Reversible(d) && k <= |Rollback(d).ops|
    ensures EspSafe(t, Run(d, Rollback(d).ops[..k])) <==>
              k < FirstFlip(d) || k == |Rollback(d).ops| || NamedBy(d.roles, Staging, d.roles[Current])
  {
    ConsistentFallback(t, d);
    ConsistentSteps(t, d, k);
  }

  lemma {:induction false} GcDecides(t: Tools, m: Disk)
    requires ToolsOk(t) && Inv(t, m) && CurrentEfi in m.esp && FallbackEfi in m.esp
    requires FileOk(t, m, CurrentEfi) && m.esp[FallbackEfi].id in m.dirs
    ensures var r := Run(m, Gc(t, m));
            && r.esp == m.esp && Boots(t, r, r.esp[CurrentEfi])
            && (r.esp[FallbackEfi].id in r.dirs <==> RoleHeld(m.roles, m.esp[FallbackEfi].id))
  {
    GcKeepsHeld(t, m);
  }

  lemma {:induction false} HalfRolledBack(t: Tools, d: Disk, k: nat)
    requires Consistent(t, d) && Reversible(d) && FirstFlip(d) <= k < |Rollback(d).ops|
    ensures var m := Run(d, Rollback(d).ops[..k]);
            && Inv(t, m) && CurrentEfi in m.esp && FallbackEfi in m.esp
            && FileOk(t, m, CurrentEfi) && m.esp[FallbackEfi].id in m.dirs
            && (RoleHeld(m.roles, m.esp[FallbackEfi].id) <==> NamedBy(d.roles, Staging, d.roles[Current]))
  {
    ConsistentFallback(t, d);
    ConsistentSteps(t, d, k);
  }

  /** What a gc right after such a crash does: the demoted deployment is removed, the current one is kept. */
  lemma {:induction false} GcAfterHalfRollback(t: Tools, d: Disk, k: nat)
    requires ToolsOk(t) && Consistent(t, d) && Reversible(d) && FirstFlip(d) <= k < |Rollback(d).ops|
    ensures var m := Run(d, Rollback(d).ops[..k]);
            var r := Run(m, Gc(t, m));
            && FallbackEfi in r.esp && CurrentEfi in r.esp && Boots(t, r, r.esp[CurrentEfi])
            && (r.esp[FallbackEfi].id in r.dirs <==> NamedBy(d.roles, Staging, d.roles[Current]))
  {
    HalfRolledBack(t, d, k);
    GcDecides(t, Run(d, Rollback(d).ops[..k]));
  }

  /** A finished rollback: roles and entries have changed places, and nothing else has. */
  lemma {:induction false} RollbackSwaps(t: Tools, d: Disk)
    requires Consistent(t, d) && Reversible(d)
    ensures var r := Do(d, Rollback(d));
            && SameDeployments(d, r)
            && r.roles == d.roles[Current := d.roles[Fallback]][Fallback := d.roles[Current]]
            && r.esp == (d.esp - {SwapTmp})[CurrentEfi := d.esp[FallbackEfi]][FallbackEfi := d.esp[CurrentEfi]]
            && r.esp == Swapped(d.esp, 3)
  {
    var ops := Rollback(d).ops;
    assert ops[..|ops|] == ops;
    RollbackSteps(t, d, |ops|);
  }

  lemma {:induction false} RollbackConsistent(t: Tools, d: Disk)
    requires Consistent(t, d)
    ensures Consistent(t, Do(d, Rollback(d)))
  {
    if Fallback in d.roles {
      var ops := Rollback(d).ops;
      assert ops[..|ops|] == ops;
      ConsistentFallback(t, d);
      RollbackSafeExactly(t, d, |ops|);
      RollbackKeepsCurrent(t, d, |ops|);
      RollbackSwaps(t, d);
    }
  }

  lemma {:induction false} RolesSwappedTwice(roles: map<Role, Id>)
    requires Current in roles && Fallback in roles
    ensures var once := roles[Current := roles[Fallback]][Fallback := roles[Current]];
            once[Current := once[Fallback]][Fallback := once[Current]] == roles
  {
  }

  /** Rolling back twice is where it started: roles, both entries, deployments and store. */
  lemma {:induction false} RollbackTwice(t: Tools, d: Disk)
    requires Consistent(t, d) && Reversible(d)
    ensures var m := Do(d, Rollback(d));
            var r := Do(m, Rollback(m));
            Rollback(m).ok && SameDeployments(d, r) && r.roles == d.roles && r.esp == d.esp - {SwapTmp}
  {
    var m := Do(d, Rollback(d));
    RollbackConsistent(t, d);
    RollbackSwaps(t, d);
    ConsistentFallback(t, m);
    RollbackSwaps(t, m);
    SwappedTwice(d.esp);
    RolesSwappedTwice(d.roles);
  }
}
