/**
 An installation that stopped (`zerith/installer.py`). It insists on an id that is not there yet, so what it leaves
 is in its own way; and it writes the ESP before it sets the role.
 */
module Reinstall {
  import opened Options
  import opened Filesystem
  import opened Objects
  import opened Lifecycle
  import opened Safety
  import opened Rollbacks
  import opened Runs
  import opened Promotions
  import opened Recovery

  // ------------------------------------------------------------- its operations

  function InstallTail(n: Disk, image: Image): seq<Op> { CopyEsp(CurrentEfi, image) + SetRole(n, Current, image.id) }

  /** An installation that gets going is a build, and then its tail. */
  lemma {:induction false} InstallOps(t: Tools, d: Disk, s: Source)
    requires SourceOk(t, s) && s.id !in d.dirs
    ensures var p := Materialize(t, d, s);
            && Install(t, d, s).ok == p.ok
            && Install(t, d, s).ops == if p.ok then p.ops + InstallTail(Do(d, p), s.uki.value) else p.ops
  {
  }

  /** The operations up to and including the rename of `current.efi`. */
  function EspWritten(t: Tools, d: Disk, s: Source): nat { |Materialize(t, d, s).ops| + 2 }

  lemma {:induction false} LinkComesLast(t: Tools, d: Disk, s: Source)
    requires SourceOk(t, s) && s.id !in d.dirs && Install(t, d, s).ok
    ensures EspWritten(t, d, s) < |Install(t, d, s).ops|
  {
    InstallOps(t, d, s);
  }

  predicate NoRemoval(ops: seq<Op>, id: Id) { forall op | op in ops :: op.RmTree? ==> op.id != id }

  lemma {:induction false} DirStays(d: Disk, ops: seq<Op>, id: Id)
    requires NoRemoval(ops, id) && id in d.dirs
    ensures id in Run(d, ops).dirs
    decreases |ops|
  {
    if ops != [] {
      OpKeepsDir(d, ops[0], id);
      DirStays(Apply(d, ops[0]), ops[1..], id);
    }
  }

  lemma {:induction false} OpKeepsDir(d: Disk, op: Op, id: Id)
    requires (op.RmTree? ==> op.id != id) && id in d.dirs
    ensures id in Apply(d, op).dirs
  {
  }

  lemma {:induction false} InstallRemovesNothing(t: Tools, d: Disk, s: Source)
    requires Inv(t, d) && SourceOk(t, s) && s.id !in d.dirs
    ensures NoRemoval(Install(t, d, s).ops, s.id)
    ensures Install(t, d, s).ops != [] ==> Install(t, d, s).ops[0] == MkDir(s.id)
  {
    InstallOps(t, d, s);
    MaterializeQuiet(t, d, s, {s.id});
  }

  lemma {:induction false} MadeAtOnce(d: Disk, ops: seq<Op>, id: Id, k: nat)
    requires 0 < k <= |ops| && ops[0] == MkDir(id) && NoRemoval(ops, id)
    ensures id in Run(d, ops[..k]).dirs
  {
    var rest := ops[1..k];
    assert ops[..k] == [ops[0]] + rest;
    RunConcat(d, [ops[0]], rest);
    RunOne(d, ops[0]);
    DirStays(Apply(d, ops[0]), rest, id);
  }

  // ------------------------------------------------------------------ retries

  /** Stopped after any operation, from the first on (or finished), an installation makes every further one die. */
  lemma {:induction false} SecondInstallDies(t: Tools, d: Disk, s: Source, k: nat)
    requires Inv(t, d) && SourceOk(t, s) && s.id !in d.dirs && k <= |Install(t, d, s).ops|
    ensures var m := Run(d, Install(t, d, s).ops[..k]);
            (s.id in m.dirs <==> 0 < k) && (0 < k ==> Install(t, m, s) == Plan([], false))
  {
    if 0 < k {
      InstallRemovesNothing(t, d, s);
      MadeAtOnce(d, Install(t, d, s).ops, s.id, k);
    } else {
      assert Install(t, d, s).ops[..k] == [];
    }
  }

  /** However often it is tried. */
  lemma {:induction false} RetriesChangeNothing(t: Tools, m: Disk, s: Source, events: seq<Event>)
    requires s.id in m.dirs && forall e | e in events :: e.command == InstallCmd(s)
    ensures History(t, m, events) == m
    decreases |events|
  {
    if events != [] {
      assert events[0] in events;
      assert Until(PlanOf(t, m, events[0].command).ops, events[0].stop) == [];
      RetriesChangeNothing(t, m, s, events[1..]);
    }
  }

  /** Without a directory in the way, it returns if its objects land and its `root.cfs` measures. */
  lemma {:induction false} CleanInstall(t: Tools, d: Disk, s: Source)
    requires SourceOk(t, s) && s.id !in d.dirs
    ensures Install(t, d, s).ok <==> s.uki.Some? && Landed(t, d, s).ok && t.measure(s.cfs) == s.digest
  {
    InstallOps(t, d, s);
  }

  // ------------------------------------------------------ the entry and the role

  /** Deployments, entries and roles `j` operations into the tail. */
  lemma {:induction false} TailSteps(t: Tools, n: Disk, image: Image, j: nat)
    requires j <= |InstallTail(n, image)|
    ensures var x := Run(n, InstallTail(n, image)[..j]);
            && x.dirs == n.dirs && SameEntry(n, x, FallbackEfi)
            && (if j < 2 then SameEntry(n, x, CurrentEfi) else CurrentEfi in x.esp && x.esp[CurrentEfi] == image)
            && x.roles == if j < |InstallTail(n, image)| then n.roles else n.roles[Current := image.id]
  {
    var copy, link := CopyEsp(CurrentEfi, image), SetRole(n, Current, image.id);
    PrefixOfTwo(copy, link, j);
    if j <= 2 {
      CopyPrefix(n, CurrentEfi, image, j);
    } else {
      var e := Run(n, copy);
      assert copy[..2] == copy;
      CopyPrefix(n, CurrentEfi, image, 2);
      assert SetRole(e, Current, image.id) == link;
      SetRolePrefix(e, Current, image.id, j - 2);
      RunConcat(n, copy, link[..j - 2]);
    }
  }

  /** A build, stopped anywhere or not, leaves the host as consistent as it was, with the roles it had. */
  lemma {:induction false} BuildSteps(t: Tools, d: Disk, s: Source, k: nat)
    requires Consistent(t, d) && SourceOk(t, s) && s.id !in d.dirs && k <= |Materialize(t, d, s).ops|
    ensures var m := Run(d, Materialize(t, d, s).ops[..k]);
            Consistent(t, m) && m.roles == d.roles
  {
    MaterializeConsistent(t, d, s, k);
    MaterializeQuiet(t, d, s, {});
    StillKeepsRoles(d, Materialize(t, d, s).ops[..k], {});
  }

  lemma {:induction false} Built(t: Tools, d: Disk, s: Source)
    requires Consistent(t, d) && SourceOk(t, s) && s.id !in d.dirs && Materialize(t, d, s).ok
    ensures var n := Do(d, Materialize(t, d, s));
            && Consistent(t, n) && n.roles == d.roles && s.uki == Some(Image(s.id, s.digest))
            && s.id in n.dirs && Complete(t, n.dirs[s.id], s.digest)
  {
    var ops := Materialize(t, d, s).ops;
    assert ops[..|ops|] == ops;
    BuildSteps(t, d, s, |ops|);
    MaterializeEffect(t, d, s);
  }

  lemma {:induction false} TailSafe(t: Tools, n: Disk, x: Disk, image: Image, written: bool, linked: bool)
    requires Agree(t, n) && x.dirs == n.dirs && SameEntry(n, x, FallbackEfi) && (linked ==> written)
    requires image.id in n.dirs && Complete(t, n.dirs[image.id], image.digest)
    requires if written then CurrentEfi in x.esp && x.esp[CurrentEfi] == image else SameEntry(n, x, CurrentEfi)
    requires x.roles == if linked then n.roles[Current := image.id] else n.roles
    ensures EspSafe(t, x) <==> !written || linked || RoleHeld(n.roles, image.id)
  {
  }

  lemma {:induction false} StoppedInTail(t: Tools, d: Disk, s: Source, k: nat)
    requires Consistent(t, d) && SourceOk(t, s) && s.id !in d.dirs
    requires |Materialize(t, d, s).ops| < k <= |Install(t, d, s).ops|
    ensures var m := Run(d, Install(t, d, s).ops[..k]);
            && (EspSafe(t, m) <==>
                  k < EspWritten(t, d, s) || k == |Install(t, d, s).ops| || RoleHeld(d.roles, s.id))
            && m.roles == (if k == |Install(t, d, s).ops| then d.roles[Current := s.id] else d.roles)
            && (k >= EspWritten(t, d, s) ==> CurrentEfi in m.esp && m.esp[CurrentEfi].id == s.id)
  {
    var p := Materialize(t, d, s);
    InstallOps(t, d, s);
    Built(t, d, s);
    var n, image := Do(d, p), s.uki.value;
    var j := k - |p.ops|;
    PastFirst(d, p.ops, InstallTail(n, image), k);
    TailSteps(t, n, image, j);
    TailSafe(t, n, Run(n, InstallTail(n, image)[..j]), image, j >= 2, j == |InstallTail(n, image)|);
  }

  /**
   An installation stopped (or dying) after `k` operations: each entry names a complete held deployment, but if and
   only if it stopped between its ESP write and its role link and no role happened to name the id before.
   */
  lemma {:induction false} StoppedInstallExactly(t: Tools, d: Disk, s: Source, k: nat)
    requires Consistent(t, d) && SourceOk(t, s) && s.id !in d.dirs && k <= |Install(t, d, s).ops|
    ensures var m := Run(d, Install(t, d, s).ops[..k]);
            && (EspSafe(t, m) <==>
                  !(EspWritten(t, d, s) <= k < |Install(t, d, s).ops|) || RoleHeld(d.roles, s.id))
            && (RoleHeld(m.roles, s.id) <==>
                  RoleHeld(d.roles, s.id) || (Install(t, d, s).ok && k == |Install(t, d, s).ops|))
            && (EspWritten(t, d, s) <= k ==> CurrentEfi in m.esp && m.esp[CurrentEfi].id == s.id)
  {
    InstallOps(t, d, s);
    if k <= |Materialize(t, d, s).ops| {
      assert Install(t, d, s).ops[..k] == Materialize(t, d, s).ops[..k];
      BuildSteps(t, d, s, k);
    } else {
      StoppedInTail(t, d, s, k);
    }
  }

  lemma {:induction false} GcFrees(t: Tools, m: Disk, id: Id)
    requires ToolsOk(t) && Inv(t, m) && id in m.dirs
    ensures Run(m, Gc(t, m)).esp == m.esp && (id in Run(m, Gc(t, m)).dirs <==> RoleHeld(m.roles, id))
  {
    GcKeepsHeld(t, m);
  }

  /**
   A gc after it removes what is in the way of the next try if and only if no role names it: none did, and the
   installation had not finished. When the ESP had been written, the current entry then names nothing.
   */
  lemma {:induction false} GcAfterStoppedInstall(t: Tools, d: Disk, s: Source, k: nat)
    requires ToolsOk(t) && Consistent(t, d) && SourceOk(t, s) && s.id !in d.dirs && 0 < k <= |Install(t, d, s).ops|
    ensures var m := Run(d, Install(t, d, s).ops[..k]);
            var r := Run(m, Gc(t, m));
            && (s.id in r.dirs <==>
                  RoleHeld(d.roles, s.id) || (Install(t, d, s).ok && k == |Install(t, d, s).ops|))
            && (EspWritten(t, d, s) <= k ==> CurrentEfi in r.esp && r.esp[CurrentEfi].id == s.id)
  {
    var ops := Install(t, d, s).ops;
    SecondInstallDies(t, d, s, k);
    StoppedInstallExactly(t, d, s, k);
    InstallLegal(t, d, s);
    LegalPrefix(t, d, ops, k);
    LegalKeeps(t, d, ops[..k]);
    GcFrees(t, Run(d, ops[..k]), s.id);
  }
}
