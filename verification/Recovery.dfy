/**
 What the next command makes of a promotion or a rollback that stopped half way. Until its staging mark a deploy
 changes nothing that matters; the mark takes the last hold off the image a stopped promotion has put on the ESP.
 */
module Recovery {
  import opened Options
  import opened Filesystem
  import opened Objects
  import opened Lifecycle
  import opened Safety
  import opened Rollbacks
  import opened Runs
  import opened Promotions
  import opened Stranded

  // ----------------------------------------------------- who holds the entries

  /** Each boot entry names a deployment some role holds; it need not be complete. */
  ghost predicate EntriesHeld(d: Disk) {
    && (CurrentEfi in d.esp ==> RoleHeld(d.roles, d.esp[CurrentEfi].id))
    && (FallbackEfi in d.esp ==> RoleHeld(d.roles, d.esp[FallbackEfi].id))
  }

  /** An entry names a complete deployment, held or not. */
  ghost predicate FileComplete(t: Tools, d: Disk, f: EspName) {
    f in d.esp ==> d.esp[f].id in d.dirs && Complete(t, d.dirs[d.esp[f].id], d.esp[f].digest)
  }

  /** Of the roles a promotion of the staged `id` passes through, does one name `e`, the old current entry's image? */
  predicate StillNamed(d: Disk, id: Id, e: Id, k: nat)
    requires Current in d.roles
  {
    e == d.roles[Current] || e == id || (NamedBy(d.roles, Fallback, e) && k < Demoted(d, id))
  }

  lemma {:induction false} NamedThrough(d: Disk, id: Id, e: Id, k: nat)
    requires Current in d.roles && NamedBy(d.roles, Staging, id)
    ensures RoleHeld(RolesAt(d, id, k), e) <==> StillNamed(d, id, e, k)
    ensures k >= Demoted(d, id) ==> RoleHeld(RolesAt(d, id, k), d.roles[Current])
  {
  }

  lemma {:induction false} HeldThrough(d: Disk, x: Disk, id: Id, image: Image, k: nat)
    requires Current in d.roles && CurrentEfi in d.esp && NamedBy(d.roles, Staging, id) && image.id == id
    requires EntriesAt(d, x, image, k) && x.roles == RolesAt(d, id, k)
    ensures EntriesHeld(x) <==>
              && StillNamed(d, id, d.esp[CurrentEfi].id, k)
              && (k < FALLBACK_COPIED && FallbackEfi in d.esp ==> RoleHeld(d.roles, d.esp[FallbackEfi].id))
  {
    NamedThrough(d, id, d.esp[CurrentEfi].id, k);
    NamedThrough(d, id, id, k);
  }

  // ---------------------------------------------------- a promotion, stopped

  /** A staged disk that a promotion of `id` starts from: every entry names a complete deployment. */
  ghost predicate Ready(t: Tools, n: Disk, id: Id) {
    && Inv(t, n) && Current in n.roles && CurrentEfi in n.esp && n.roles[Current] != id
    && Staged(n, id).Some? && NamedBy(n.roles, Staging, id)
    && FileComplete(t, n, CurrentEfi) && FileComplete(t, n, FallbackEfi)
  }

  lemma {:induction false} StagedImage(t: Tools, n: Disk, id: Id)
    requires Inv(t, n) && Staged(n, id).Some?
    ensures Staged(n, id).value.id == id && Complete(t, n.dirs[id], Staged(n, id).value.digest)
  {
    assert Committed(t, id, n.dirs[id]);
  }

  /** Until gc, every entry a promotion writes names a complete deployment. */
  lemma {:induction false} CompleteThrough(t: Tools, n: Disk, x: Disk, id: Id, k: nat)
    requires Ready(t, n, id) && x.dirs == n.dirs && EntriesAt(n, x, Staged(n, id).value, k)
    ensures FileComplete(t, x, CurrentEfi) && FileComplete(t, x, FallbackEfi)
  {
    StagedImage(t, n, id);
  }

  lemma {:induction false} HeldIsSafe(t: Tools, x: Disk)
    requires FileComplete(t, x, CurrentEfi) && FileComplete(t, x, FallbackEfi)
    ensures EspSafe(t, x) <==> EntriesHeld(x)
  {
  }

  lemma {:induction false} SafeBeforeGc(t: Tools, n: Disk, id: Id, k: nat)
    requires Ready(t, n, id) && k <= FlipEnd(n, id) && k <= |Promote(t, n, id).ops|
    ensures var x := Run(n, Promote(t, n, id).ops[..k]); EspSafe(t, x) <==> EntriesHeld(x)
  {
    var x := Run(n, Promote(t, n, id).ops[..k]);
    PromoteSteps(t, n, id, k);
    CompleteThrough(t, n, x, id, k);
    HeldIsSafe(t, x);
  }

  /** Its gc, stopped anywhere, keeps safe what is safe. */
  lemma {:induction false} SafeInGc(t: Tools, n: Disk, flip: seq<Op>, k: nat)
    requires Inv(t, Run(n, flip)) && EspSafe(t, Run(n, flip)) && |flip| <= k <= |flip + Gc(t, Run(n, flip))|
    ensures EspSafe(t, Run(n, (flip + Gc(t, Run(n, flip)))[..k]))
  {
    var e := Run(n, flip);
    AlwaysGc(t, e);
    assert (flip + Gc(t, e))[..k] == flip + Gc(t, e)[..k - |flip|];
    RunConcat(n, flip, Gc(t, e)[..k - |flip|]);
  }

  lemma {:induction false} SafeFromFlip(t: Tools, n: Disk, id: Id, k: nat)
    requires Ready(t, n, id) && FlipEnd(n, id) < k <= |Promote(t, n, id).ops|
    requires EspSafe(t, Run(n, Promote(t, n, id).ops[..FlipEnd(n, id)]))
    ensures EspSafe(t, Run(n, Promote(t, n, id).ops[..k]))
  {
    var flip := Flip(n, id, Staged(n, id).value);
    FlipLength(n, id, Staged(n, id).value);
    FlipLegal(t, n, id, Staged(n, id).value);
    assert Promote(t, n, id).ops[..FlipEnd(n, id)] == flip;
    SafeInGc(t, n, flip, k);
  }

  /** A promotion from any staged disk leaves, after `k` operations, what the roles it has passed through hold. */
  lemma {:induction false} PromoteSafeExactly(t: Tools, n: Disk, id: Id, k: nat)
    requires Ready(t, n, id) && k <= |Promote(t, n, id).ops|
    ensures EspSafe(t, Run(n, Promote(t, n, id).ops[..k])) <==>
              && StillNamed(n, id, n.esp[CurrentEfi].id, k)
              && (k < FALLBACK_COPIED && FallbackEfi in n.esp ==> RoleHeld(n.roles, n.esp[FallbackEfi].id))
  {
    var x, end := Run(n, Promote(t, n, id).ops[..k]), FlipEnd(n, id);
    StagedImage(t, n, id);
    PromoteSteps(t, n, id, k);
    HeldThrough(n, x, id, Staged(n, id).value, k);
    if k <= end {
      SafeBeforeGc(t, n, id, k);
    } else if StillNamed(n, id, n.esp[CurrentEfi].id, k) {
      PromoteSteps(t, n, id, end);
      HeldThrough(n, Run(n, Promote(t, n, id).ops[..end]), id, Staged(n, id).value, end);
      SafeBeforeGc(t, n, id, end);
      SafeFromFlip(t, n, id, k);
    }
  }

  // ------------------------------------------------------- a deploy, stopped

  /** A disk some crash has left: the current entry is good, the fallback entry's deployment is there, held or not. */
  ghost predicate Halfway(t: Tools, m: Disk) {
    && Inv(t, m) && Current in m.roles && CurrentEfi in m.esp
    && FileOk(t, m, CurrentEfi) && FileComplete(t, m, FallbackEfi)
  }

  /** The deploy has marked its image as staging. */
  predicate Marked(t: Tools, m: Disk, s: Source, j: nat) { Stage(t, m, s).ok && j >= |Stage(t, m, s).ops| }

  /** How far its promotion has come. */
  function Promoting(t: Tools, m: Disk, s: Source, j: nat): nat
    requires Marked(t, m, s, j)
  {
    j - |Stage(t, m, s).ops|
  }

  /** A plan that leaves the role links alone, and then the mark. */
  lemma {:induction false} ThenMarkRoles(m: Disk, p: Plan, mark: seq<Op>, id: Id, j: nat)
    requires AllStill(p.ops, {}) && mark == SetRole(Do(m, p), Staging, id)
    requires var ops := Then(p, Plan(mark, true)).ops; j <= |ops|
    ensures var ops := Then(p, Plan(mark, true)).ops;
            Run(m, ops[..j]).roles == if p.ok && j == |ops| then m.roles[Staging := id] else m.roles
  {
    StillKeepsRoles(m, p.ops, {});
    if !p.ok || j <= |p.ops| {
      assert Then(p, Plan(mark, true)).ops[..j] == p.ops[..j];
      StillKeepsRoles(m, p.ops[..j], {});
    } else {
      PrefixOfTwo(p.ops, mark, j);
      RunConcat(m, p.ops, mark[..j - |p.ops|]);
      SetRolePrefix(Do(m, p), Staging, id, j - |p.ops|);
    }
  }

  /** Nothing a deploy does before its mark touches a role link. */
  lemma {:induction false} StageRoles(t: Tools, m: Disk, s: Source, j: nat)
    requires Inv(t, m) && SourceOk(t, s) && j <= |Stage(t, m, s).ops|
    ensures Run(m, Stage(t, m, s).ops[..j]).roles
         == if Marked(t, m, s, j) then m.roles[Staging := s.id] else m.roles
  {
    var p := if HasCfs(m, s.id) then Plan([], true) else Materialize(t, m, s);
    StageQuiet(t, m, s, {});
    ThenMarkRoles(m, p, SetRole(Do(m, p), Staging, s.id), s.id, j);
  }

  lemma {:induction false} StageKeeps(t: Tools, m: Disk, s: Source, j: nat)
    requires Inv(t, m) && SourceOk(t, s) && j <= |Stage(t, m, s).ops|
    ensures var n := Run(m, Stage(t, m, s).ops[..j]);
            Inv(t, n) && BootKept(t, m, n, BootIds(m))
  {
    var ops := Stage(t, m, s).ops;
    StageLegal(t, m, s);
    StageQuiet(t, m, s, BootIds(m));
    LegalPrefix(t, m, ops, j);
    LegalKeeps(t, m, ops[..j]);
    QuietOpsKeep(t, m, ops[..j], BootIds(m));
  }

  /** After `j` operations of staging: the ESP as it was, its deployments complete, the roles but for the mark. */
  lemma {:induction false} StageSteps(t: Tools, m: Disk, s: Source, j: nat)
    requires Halfway(t, m) && SourceOk(t, s) && j <= |Stage(t, m, s).ops|
    ensures var n := Run(m, Stage(t, m, s).ops[..j]);
            && Inv(t, n) && n.esp == m.esp
            && n.roles == (if Marked(t, m, s, j) then m.roles[Staging := s.id] else m.roles)
            && FileComplete(t, n, CurrentEfi) && FileComplete(t, n, FallbackEfi)
  {
    StageRoles(t, m, s, j);
    StageKeeps(t, m, s, j);
  }

  /** The ids of the old current entry are still named by a role after `j` operations of the deploy. */
  predicate KeepsCurrent(t: Tools, m: Disk, s: Source, j: nat)
    requires Current in m.roles && CurrentEfi in m.esp
  {
    var e := m.esp[CurrentEfi].id;
    || !Marked(t, m, s, j)
    || e == m.roles[Current] || e == s.id
    || (NamedBy(m.roles, Fallback, e) && Promoting(t, m, s, j) < Demoted(Do(m, Stage(t, m, s)), s.id))
  }

  /** And the old fallback entry's, for as long as the entry is there. */
  predicate KeepsFallback(t: Tools, m: Disk, s: Source, j: nat) {
    FallbackEfi in m.esp ==>
      var f := m.esp[FallbackEfi].id;
      if !Marked(t, m, s, j) then RoleHeld(m.roles, f)
      else Promoting(t, m, s, j) >= FALLBACK_COPIED || RoleHeld(m.roles[Staging := s.id], f)
  }

  lemma {:induction false} SafeInStage(t: Tools, m: Disk, s: Source, j: nat)
    requires Halfway(t, m) && SourceOk(t, s) && j <= |Stage(t, m, s).ops|
    ensures EspSafe(t, Run(m, Stage(t, m, s).ops[..j])) <==> KeepsCurrent(t, m, s, j) && KeepsFallback(t, m, s, j)
  {
    StageSteps(t, m, s, j);
    HeldIsSafe(t, Run(m, Stage(t, m, s).ops[..j]));
  }

  lemma {:induction false} PastFirst(m: Disk, a: seq<Op>, b: seq<Op>, j: nat)
    requires |a| < j <= |a + b|
    ensures Run(m, (a + b)[..j]) == Run(Run(m, a), b[..j - |a|])
  {
    PrefixOfTwo(a, b, j);
    RunConcat(m, a, b[..j - |a|]);
  }

  /** The operations take the one disk to the other. */
  ghost predicate Leads(n: Disk, ops: seq<Op>, x: Disk) { x == Run(n, ops) }

  lemma {:induction false} ThenPast(m: Disk, whole: Plan, p: Plan, q: Plan, j: nat, n: Disk, x: Disk)
    requires whole == Then(p, q) && |p.ops| < j <= |whole.ops| && Leads(m, p.ops, n) && Leads(m, whole.ops[..j], x)
    ensures p.ok && j - |p.ops| <= |q.ops| && q.ops != [] && Leads(n, q.ops[..j - |p.ops|], x)
  {
    PastFirst(m, p.ops, q.ops, j);
  }

  lemma {:induction false} Reach(m: Disk, ops: seq<Op>) returns (x: Disk)
    ensures Leads(m, ops, x)
  {
    x := Run(m, ops);
  }

  lemma {:induction false} DeployOps(t: Tools, m: Disk, s: Source, n: Disk)
    requires Get(m, Current) != Some(s.id) && Leads(m, Stage(t, m, s).ops, n)
    ensures Deploy(t, m, s) == Then(Stage(t, m, s), Promote(t, n, s.id))
  {
  }

  lemma {:induction false} PromoteWants(t: Tools, n: Disk, id: Id)
    requires Get(n, Current) != Some(id) && Promote(t, n, id).ops != []
    ensures Staged(n, id).Some?
  {
  }

  lemma {:induction false} StageSameCurrent(t: Tools, m: Disk, s: Source)
    requires Inv(t, m) && SourceOk(t, s)
    ensures Get(Do(m, Stage(t, m, s)), Current) == Get(m, Current)
  {
    StageQuietly(t, m, s);
  }

  /** A deploy that is not a no-op is its stage, and then its promotion. */
  lemma {:induction false} DeployPrefix(t: Tools, m: Disk, s: Source, j: nat)
    requires Get(m, Current) != Some(s.id) && j <= |Deploy(t, m, s).ops| && j <= |Stage(t, m, s).ops|
    ensures Deploy(t, m, s).ops[..j] == Stage(t, m, s).ops[..j]
  {
    var n := Reach(m, Stage(t, m, s).ops);
    DeployOps(t, m, s, n);
  }

  lemma {:induction false} PastStage(t: Tools, m: Disk, s: Source, j: nat, p: Plan, ops: seq<Op>, n: Disk, x: Disk)
    requires Get(m, Current) != Some(s.id) && p == Stage(t, m, s) && ops == Deploy(t, m, s).ops
    requires |p.ops| < j <= |ops| && Leads(m, p.ops, n) && Leads(m, ops[..j], x)
    ensures p.ok
    ensures var q, k := Promote(t, n, s.id), j - |p.ops|;
            q.ops != [] && k <= |q.ops| && Leads(n, q.ops[..k], x)
  {
    DeployOps(t, m, s, n);
    ThenPast(m, Then(p, Promote(t, n, s.id)), p, Promote(t, n, s.id), j, n, x);
  }

  lemma {:induction false} PastMark(t: Tools, m: Disk, s: Source, j: nat, p: Plan, ops: seq<Op>)
    requires Get(m, Current) != Some(s.id) && p == Stage(t, m, s) && ops == Deploy(t, m, s).ops
    requires |p.ops| < j <= |ops|
    ensures Marked(t, m, s, j) && Promoting(t, m, s, j) == j - |p.ops|
  {
    var n := Reach(m, p.ops);
    var x := Reach(m, ops[..j]);
    PastStage(t, m, s, j, p, ops, n, x);
  }

  /** Past the mark: the staged disk, and the disk so and so many operations into the promotion. */
  lemma {:induction false} DeployPast(t: Tools, m: Disk, s: Source, j: nat) returns (n: Disk, x: Disk)
    requires Get(m, Current) != Some(s.id) && |Stage(t, m, s).ops| < j <= |Deploy(t, m, s).ops|
    ensures Marked(t, m, s, j) && Leads(m, Stage(t, m, s).ops, n) && Leads(m, Deploy(t, m, s).ops[..j], x)
    ensures var q, k := Promote(t, n, s.id), Promoting(t, m, s, j);
            q.ops != [] && k <= |q.ops| && Leads(n, q.ops[..k], x)
  {
    var p, ops := Stage(t, m, s), Deploy(t, m, s).ops;
    n := Reach(m, p.ops);
    x := Reach(m, ops[..j]);
    PastStage(t, m, s, j, p, ops, n, x);
    PastMark(t, m, s, j, p, ops);
  }

  lemma {:induction false} StagedReady(t: Tools, m: Disk, s: Source)
    requires Halfway(t, m) && SourceOk(t, s) && Get(m, Current) != Some(s.id) && Stage(t, m, s).ok
    ensures var n := Do(m, Stage(t, m, s));
            && n.esp == m.esp && n.roles == m.roles[Staging := s.id]
            && (Promote(t, n, s.id).ops != [] ==> Ready(t, n, s.id))
  {
    var ops, n := Stage(t, m, s).ops, Do(m, Stage(t, m, s));
    assert ops[..|ops|] == ops;
    StageSteps(t, m, s, |ops|);
    StageSameCurrent(t, m, s);
    if Promote(t, n, s.id).ops != [] { PromoteWants(t, n, s.id); }
  }

  lemma {:induction false} MarkTakes(t: Tools, m: Disk, s: Source)
    ensures Stage(t, m, s).ok ==> |Stage(t, m, s).ops| >= 2
  {
  }

  lemma {:induction false} KeepsAsNamed(t: Tools, m: Disk, s: Source, j: nat)
    requires Current in m.roles && CurrentEfi in m.esp && Marked(t, m, s, j)
    requires var n := Do(m, Stage(t, m, s)); n.esp == m.esp && n.roles == m.roles[Staging := s.id]
    ensures var n := Do(m, Stage(t, m, s));
            var k := Promoting(t, m, s, j);
            && (KeepsCurrent(t, m, s, j) <==> StillNamed(n, s.id, n.esp[CurrentEfi].id, k))
            && (KeepsFallback(t, m, s, j) <==>
                  (k < FALLBACK_COPIED && FallbackEfi in n.esp ==> RoleHeld(n.roles, n.esp[FallbackEfi].id)))
  {
  }

  lemma {:induction false} SafeInPromote(t: Tools, m: Disk, s: Source, j: nat)
    requires Halfway(t, m) && SourceOk(t, s) && Get(m, Current) != Some(s.id)
    requires |Stage(t, m, s).ops| < j <= |Deploy(t, m, s).ops|
    ensures EspSafe(t, Run(m, Deploy(t, m, s).ops[..j])) <==> KeepsCurrent(t, m, s, j) && KeepsFallback(t, m, s, j)
  {
    var n, x := DeployPast(t, m, s, j);
    StagedReady(t, m, s);
    KeepsAsNamed(t, m, s, j);
    PromoteSafeExactly(t, n, s.id, Promoting(t, m, s, j));
  }

  /**
   A deploy of any image, from any half-way disk, stopped (or dying) after `j` operations: both entries are complete
   and held if and only if some role still names the image the current entry named, and, while the old fallback
   entry is there, its image.
   */
  lemma {:induction false} StoppedDeployExactly(t: Tools, m: Disk, s: Source, j: nat)
    requires Halfway(t, m) && SourceOk(t, s) && j <= |Deploy(t, m, s).ops|
    ensures EspSafe(t, Run(m, Deploy(t, m, s).ops[..j])) <==> KeepsCurrent(t, m, s, j) && KeepsFallback(t, m, s, j)
  {
    if Get(m, Current) == Some(s.id) {
      MarkTakes(t, m, s);
      SafeInStage(t, m, s, 0);
      assert Stage(t, m, s).ops[..0] == Deploy(t, m, s).ops[..j];
    } else if j <= |Stage(t, m, s).ops| {
      DeployPrefix(t, m, s, j);
      SafeInStage(t, m, s, j);
    } else {
      SafeInPromote(t, m, s, j);
    }
  }

  /** The fallback entry's image is named by one of the two boot roles. */
  ghost predicate FallbackNamed(m: Disk) {
    FallbackEfi in m.esp ==>
      NamedBy(m.roles, Fallback, m.esp[FallbackEfi].id) || NamedBy(m.roles, Current, m.esp[FallbackEfi].id)
  }

  lemma {:induction false} NamedIsKept(t: Tools, m: Disk, s: Source, j: nat)
    requires FallbackNamed(m)
    ensures KeepsFallback(t, m, s, j)
  {
  }

  /** With entry and role in step, and both entries named by a boot role, no deploy endangers anything. */
  lemma {:induction false} AlwaysNextDeploy(t: Tools, m: Disk, s: Source)
    requires Halfway(t, m) && InStep(m) && FallbackNamed(m) && SourceOk(t, s)
    ensures Always(t, m, Deploy(t, m, s).ops)
  {
    var ops := Deploy(t, m, s).ops;
    forall j | 0 <= j <= |ops| ensures EspSafe(t, Run(m, ops[..j])) {
      NamedIsKept(t, m, s, j);
      StoppedDeployExactly(t, m, s, j);
    }
  }

  // ------------------------------------------------------- and a gc after it

  /** Some entry of the boot menu starts. */
  ghost predicate CanBoot(t: Tools, d: Disk) {
    || (CurrentEfi in d.esp && Boots(t, d, d.esp[CurrentEfi]))
    || (FallbackEfi in d.esp && Boots(t, d, d.esp[FallbackEfi]))
  }

  lemma {:induction false} GcDecidesEntry(t: Tools, x: Disk, f: EspName)
    requires ToolsOk(t) && Inv(t, x) && f in x.esp && FileComplete(t, x, f)
    ensures var r := Run(x, Gc(t, x));
            r.esp == x.esp && (Boots(t, r, r.esp[f]) <==> RoleHeld(x.roles, x.esp[f].id))
  {
    GcKeepsHeld(t, x);
  }

  lemma {:induction false} GcTakes(t: Tools, x: Disk, e: Id)
    requires ToolsOk(t) && Inv(t, x) && !RoleHeld(x.roles, e)
    ensures var r := Run(x, Gc(t, x)); r.esp == x.esp && r.roles == x.roles && e !in r.dirs
  {
    GcKeepsHeld(t, x);
  }

  /** After a gc the host starts if and only if a role holds what one of its entries names. */
  lemma {:induction false} GcDecidesBoot(t: Tools, x: Disk)
    requires ToolsOk(t) && Inv(t, x) && FileComplete(t, x, CurrentEfi) && FileComplete(t, x, FallbackEfi)
    ensures CanBoot(t, Run(x, Gc(t, x))) <==>
              || (CurrentEfi in x.esp && RoleHeld(x.roles, x.esp[CurrentEfi].id))
              || (FallbackEfi in x.esp && RoleHeld(x.roles, x.esp[FallbackEfi].id))
  {
    GcKeepsHeld(t, x);
    if CurrentEfi in x.esp { GcDecidesEntry(t, x, CurrentEfi); }
    if FallbackEfi in x.esp { GcDecidesEntry(t, x, FallbackEfi); }
  }

  /** Does one of the entries that are there after `k` operations of a promotion from `n` have a holder? */
  predicate SomeEntryNamed(n: Disk, id: Id, k: nat)
    requires Current in n.roles && CurrentEfi in n.esp
  {
    || StillNamed(n, id, n.esp[CurrentEfi].id, k)
    || k >= WINDOW_START
    || (k < FALLBACK_COPIED && FallbackEfi in n.esp && RoleHeld(n.roles, n.esp[FallbackEfi].id))
  }

  lemma {:induction false} SomeHeldThrough(d: Disk, x: Disk, id: Id, image: Image, k: nat)
    requires Current in d.roles && CurrentEfi in d.esp && NamedBy(d.roles, Staging, id) && image.id == id
    requires SteppedTo(d, x, id, image, k)
    ensures SomeEntryNamed(d, id, k) <==>
              || RoleHeld(x.roles, x.esp[CurrentEfi].id)
              || (FallbackEfi in x.esp && RoleHeld(x.roles, x.esp[FallbackEfi].id))
  {
    NamedThrough(d, id, d.esp[CurrentEfi].id, k);
    NamedThrough(d, id, id, k);
  }

  lemma {:induction false} PromoteKeepsLaws(t: Tools, n: Disk, id: Id, k: nat)
    requires Inv(t, n) && k <= |Promote(t, n, id).ops|
    ensures Inv(t, Run(n, Promote(t, n, id).ops[..k]))
  {
    PromoteLegal(t, n, id);
    LegalPrefix(t, n, Promote(t, n, id).ops, k);
    LegalKeeps(t, n, Promote(t, n, id).ops[..k]);
  }

  lemma {:induction false} BootsBeforeGc(t: Tools, n: Disk, id: Id, k: nat)
    requires ToolsOk(t) && Ready(t, n, id) && k <= FlipEnd(n, id) && k <= |Promote(t, n, id).ops|
    ensures var x := Run(n, Promote(t, n, id).ops[..k]);
            CanBoot(t, Run(x, Gc(t, x))) <==> SomeEntryNamed(n, id, k)
  {
    var x := Run(n, Promote(t, n, id).ops[..k]);
    StagedImage(t, n, id);
    PromoteSteps(t, n, id, k);
    CompleteThrough(t, n, x, id, k);
    SomeHeldThrough(n, x, id, Staged(n, id).value, k);
    PromoteKeepsLaws(t, n, id, k);
    GcDecidesBoot(t, x);
  }

  lemma {:induction false} GcKeepsImage(t: Tools, e: Disk, image: Image, j: nat)
    requires Inv(t, e) && ImageOk(t, e, image) && j <= |Gc(t, e)|
    ensures ImageOk(t, Run(e, Gc(t, e)[..j]), image)
  {
    GcLegal(t, e);
    GcQuiet(t, e, {image.id});
    GcRemoves(t, e);
    LegalPrefix(t, e, Gc(t, e), j);
    QuietOpsKeep(t, e, Gc(t, e)[..j], {image.id});
    RemovalsKeepRoles(e, Gc(t, e)[..j]);
  }

  lemma {:induction false} NewImageHeld(t: Tools, n: Disk, e: Disk, id: Id, image: Image)
    requires id in n.dirs && image.id == id && Complete(t, n.dirs[id], image.digest)
    requires e.dirs == n.dirs && e.roles == Promoted(n.roles, id)
    ensures ImageOk(t, e, image)
  {
  }

  lemma {:induction false} FlippedImage(t: Tools, n: Disk, id: Id)
    requires Ready(t, n, id)
    ensures var e := Run(n, Flip(n, id, Staged(n, id).value));
            Inv(t, e) && ImageOk(t, e, Staged(n, id).value)
  {
    StagedImage(t, n, id);
    Flipped(t, n, id);
    NewImageHeld(t, n, Run(n, Flip(n, id, Staged(n, id).value)), id, Staged(n, id).value);
  }

  lemma {:induction false} ImageInGc(t: Tools, n: Disk, flip: seq<Op>, image: Image, k: nat)
    requires Inv(t, Run(n, flip)) && ImageOk(t, Run(n, flip), image)
    requires |flip| < k <= |flip + Gc(t, Run(n, flip))|
    ensures ImageOk(t, Run(n, (flip + Gc(t, Run(n, flip)))[..k]), image)
  {
    PastFirst(n, flip, Gc(t, Run(n, flip)), k);
    GcKeepsImage(t, Run(n, flip), image, k - |flip|);
  }

  lemma {:induction false} CurrentInGc(t: Tools, n: Disk, id: Id, k: nat)
    requires Ready(t, n, id) && FlipEnd(n, id) < k <= |Promote(t, n, id).ops|
    ensures var x := Run(n, Promote(t, n, id).ops[..k]);
            Inv(t, x) && CurrentEfi in x.esp && ImageOk(t, x, x.esp[CurrentEfi])
  {
    var image := Staged(n, id).value;
    FlipLength(n, id, image);
    FlippedImage(t, n, id);
    ImageInGc(t, n, Flip(n, id, image), image, k);
    PromoteSteps(t, n, id, k);
    PromoteKeepsLaws(t, n, id, k);
  }

  lemma {:induction false} BootsInGc(t: Tools, n: Disk, id: Id, k: nat)
    requires ToolsOk(t) && Ready(t, n, id) && FlipEnd(n, id) < k <= |Promote(t, n, id).ops|
    ensures var x := Run(n, Promote(t, n, id).ops[..k]); CanBoot(t, Run(x, Gc(t, x)))
  {
    CurrentInGc(t, n, id, k);
    GcDecidesEntry(t, Run(n, Promote(t, n, id).ops[..k]), CurrentEfi);
  }

  // -------------------------------------------------- the deploy and the gc

  /** Does the deploy leave, after `j` operations, an entry whose image some role names? */
  predicate KeepsSome(t: Tools, m: Disk, s: Source, j: nat)
    requires Current in m.roles && CurrentEfi in m.esp
  {
    || KeepsCurrent(t, m, s, j)
    || Promoting(t, m, s, j) >= WINDOW_START
    || (Promoting(t, m, s, j) < FALLBACK_COPIED && FallbackEfi in m.esp && KeepsFallback(t, m, s, j))
  }

  lemma {:induction false} SomeAsNamed(t: Tools, m: Disk, s: Source, j: nat)
    requires Current in m.roles && CurrentEfi in m.esp && Marked(t, m, s, j)
    requires var n := Do(m, Stage(t, m, s)); n.esp == m.esp && n.roles == m.roles[Staging := s.id]
    ensures KeepsSome(t, m, s, j) <==> SomeEntryNamed(Do(m, Stage(t, m, s)), s.id, Promoting(t, m, s, j))
  {
    KeepsAsNamed(t, m, s, j);
  }

  lemma {:induction false} SomeWhileStaging(t: Tools, m: Disk, x: Disk, s: Source, j: nat)
    requires Current in m.roles && FileOk(t, m, CurrentEfi) && CurrentEfi in m.esp && j <= |Stage(t, m, s).ops|
    requires x.esp == m.esp && x.roles == (if Marked(t, m, s, j) then m.roles[Staging := s.id] else m.roles)
    ensures KeepsSome(t, m, s, j) <==>
              || RoleHeld(x.roles, x.esp[CurrentEfi].id)
              || (FallbackEfi in x.esp && RoleHeld(x.roles, x.esp[FallbackEfi].id))
  {
  }

  lemma {:induction false} BootsAfterStage(t: Tools, m: Disk, s: Source, j: nat)
    requires ToolsOk(t) && Halfway(t, m) && SourceOk(t, s) && j <= |Stage(t, m, s).ops|
    ensures var x := Run(m, Stage(t, m, s).ops[..j]);
            CanBoot(t, Run(x, Gc(t, x))) <==> KeepsSome(t, m, s, j)
  {
    var x := Run(m, Stage(t, m, s).ops[..j]);
    StageSteps(t, m, s, j);
    SomeWhileStaging(t, m, x, s, j);
    GcDecidesBoot(t, x);
  }

  lemma {:induction false} BootsAfterPromote(t: Tools, m: Disk, s: Source, j: nat)
    requires ToolsOk(t) && Halfway(t, m) && SourceOk(t, s) && Get(m, Current) != Some(s.id)
    requires |Stage(t, m, s).ops| < j <= |Deploy(t, m, s).ops|
    ensures var x := Run(m, Deploy(t, m, s).ops[..j]);
            CanBoot(t, Run(x, Gc(t, x))) <==> KeepsSome(t, m, s, j)
  {
    var n, x := DeployPast(t, m, s, j);
    StagedReady(t, m, s);
    SomeAsNamed(t, m, s, j);
    var k := Promoting(t, m, s, j);
    if k <= FlipEnd(n, s.id) { BootsBeforeGc(t, n, s.id, k); } else { BootsInGc(t, n, s.id, k); }
  }

  /**
   And after a gc: the host starts if and only if the image of the old current entry is still named, or the new one
   is on the ESP, or the old fallback entry is there and its image is named. So it does not if the deploy stopped
   between the copy of the stranded image to the fallback entry and the rename of the current one.
   */
  lemma {:induction false} StartsAfterStoppedDeploy(t: Tools, m: Disk, s: Source, j: nat)
    requires ToolsOk(t) && Halfway(t, m) && SourceOk(t, s) && j <= |Deploy(t, m, s).ops|
    ensures var x := Run(m, Deploy(t, m, s).ops[..j]);
            CanBoot(t, Run(x, Gc(t, x))) <==> KeepsSome(t, m, s, j)
  {
    if Get(m, Current) == Some(s.id) {
      MarkTakes(t, m, s);
      BootsAfterStage(t, m, s, 0);
      assert Stage(t, m, s).ops[..0] == Deploy(t, m, s).ops[..j];
    } else if j <= |Stage(t, m, s).ops| {
      DeployPrefix(t, m, s, j);
      BootsAfterStage(t, m, s, j);
    } else {
      BootsAfterPromote(t, m, s, j);
    }
  }

  lemma {:induction false} DeployKeepsLaws(t: Tools, m: Disk, s: Source, j: nat)
    requires Inv(t, m) && SourceOk(t, s) && j <= |Deploy(t, m, s).ops|
    ensures Inv(t, Run(m, Deploy(t, m, s).ops[..j]))
  {
    DeployLegal(t, m, s);
    LegalPrefix(t, m, Deploy(t, m, s).ops, j);
    LegalKeeps(t, m, Deploy(t, m, s).ops[..j]);
  }

  /** No role names the image of `m`'s current entry; these of the entries do, after `k` operations of a promotion. */
  ghost predicate Orphaned(m: Disk, x: Disk, k: nat)
    requires CurrentEfi in m.esp
  {
    && !RoleHeld(x.roles, m.esp[CurrentEfi].id) && CurrentEfi in x.esp
    && (k < WINDOW_START ==> x.esp[CurrentEfi] == m.esp[CurrentEfi])
    && (k >= FALLBACK_COPIED ==> FallbackEfi in x.esp && x.esp[FallbackEfi] == m.esp[CurrentEfi])
  }

  lemma {:induction false} OrphanedThrough(n: Disk, x: Disk, id: Id, image: Image, k: nat)
    requires Current in n.roles && CurrentEfi in n.esp && NamedBy(n.roles, Staging, id)
    requires SteppedTo(n, x, id, image, k) && !StillNamed(n, id, n.esp[CurrentEfi].id, k)
    ensures Orphaned(n, x, k)
  {
    NamedThrough(n, id, n.esp[CurrentEfi].id, k);
  }

  lemma {:induction false} OrphanedWhilePromoting(t: Tools, m: Disk, s: Source, j: nat)
    requires Halfway(t, m) && SourceOk(t, s) && Get(m, Current) != Some(s.id) && !KeepsCurrent(t, m, s, j)
    requires |Stage(t, m, s).ops| < j <= |Deploy(t, m, s).ops|
    ensures Orphaned(m, Run(m, Deploy(t, m, s).ops[..j]), Promoting(t, m, s, j))
  {
    var n, x := DeployPast(t, m, s, j);
    var k := Promoting(t, m, s, j);
    StagedReady(t, m, s);
    KeepsAsNamed(t, m, s, j);
    PromoteSteps(t, n, s.id, k);
    OrphanedThrough(n, x, s.id, Staged(n, s.id).value, k);
  }

  lemma {:induction false} OrphanedWhenUnnamed(t: Tools, m: Disk, s: Source, j: nat)
    requires Halfway(t, m) && SourceOk(t, s) && j <= |Deploy(t, m, s).ops| && !KeepsCurrent(t, m, s, j)
    ensures Orphaned(m, Run(m, Deploy(t, m, s).ops[..j]), Promoting(t, m, s, j))
  {
    MarkTakes(t, m, s);
    if j <= |Stage(t, m, s).ops| {
      DeployPrefix(t, m, s, j);
      StageSteps(t, m, s, j);
    } else {
      OrphanedWhilePromoting(t, m, s, j);
    }
  }

  /**
   When no role names the old current entry's image any more, a gc removes its deployment, and these are the entries
   that name it: the current one until it is renamed, the fallback one from when it has been copied.
   */
  lemma {:induction false} GcAfterStoppedDeploy(t: Tools, m: Disk, s: Source, j: nat)
    requires ToolsOk(t) && Halfway(t, m) && SourceOk(t, s) && j <= |Deploy(t, m, s).ops| && !KeepsCurrent(t, m, s, j)
    ensures var x := Run(m, Deploy(t, m, s).ops[..j]);
            var r := Run(x, Gc(t, x));
            m.esp[CurrentEfi].id !in r.dirs && Orphaned(m, r, Promoting(t, m, s, j))
  {
    OrphanedWhenUnnamed(t, m, s, j);
    DeployKeepsLaws(t, m, s, j);
    GcTakes(t, Run(m, Deploy(t, m, s).ops[..j]), m.esp[CurrentEfi].id);
  }

  // ---------------------------------------- after a promotion that stopped

  lemma {:induction false} StoppedLaws(t: Tools, d: Disk, id: Id, k: nat)
    requires Consistent(t, d) && NamedBy(d.roles, Staging, id) && k <= |Promote(t, d, id).ops|
    ensures var m := Run(d, Promote(t, d, id).ops[..k]); Inv(t, m) && EspSafe(t, m)
  {
    AlwaysPromote(t, d, id);
    PromoteKeepsLaws(t, d, id, k);
  }

  /** What roles and entries a promotion of `d` stopped after `k` operations has left, and that they hold for now. */
  ghost predicate StoppedAt(d: Disk, m: Disk, id: Id, k: nat)
    requires Current in d.roles
  {
    && CurrentEfi in m.esp && m.esp[CurrentEfi].id == (if k < WINDOW_START then d.roles[Current] else id)
    && m.roles == RolesAt(d, id, k) && FallbackNamed(m)
    && (k >= FALLBACK_COPIED ==> FallbackEfi in m.esp)
  }

  lemma {:induction false} StoppedEntries(t: Tools, d: Disk, m: Disk, id: Id, image: Image, k: nat)
    requires Agree(t, d) && Current in d.roles && SteppedTo(d, m, id, image, k) && image.id == id
    ensures StoppedAt(d, m, id, k)
  {
  }

  lemma {:induction false} SafeIsHalfway(t: Tools, m: Disk)
    requires Inv(t, m) && EspSafe(t, m) && Current in m.roles && CurrentEfi in m.esp
    ensures Halfway(t, m)
  {
  }

  /** What a stopped promotion leaves: safe for the moment, and its roles and entries known. */
  lemma {:induction false} StoppedPromotion(t: Tools, d: Disk, id: Id, k: nat)
    requires Consistent(t, d) && NamedBy(d.roles, Staging, id)
    requires Current in d.roles && d.roles[Current] != id && Staged(d, id).Some? && k <= |Promote(t, d, id).ops|
    ensures var m := Run(d, Promote(t, d, id).ops[..k]); Halfway(t, m) && StoppedAt(d, m, id, k)
  {
    var m := Run(d, Promote(t, d, id).ops[..k]);
    StoppedLaws(t, d, id, k);
    PromoteSteps(t, d, id, k);
    StagedImage(t, d, id);
    StoppedEntries(t, d, m, id, Staged(d, id).value, k);
    SafeIsHalfway(t, m);
  }

  /**
   The promotion stopped in the window, the deploy of another image has marked its own as staging, and no role
   has been left to name the image on the ESP: the fallback role, where it did, has been moved.
   */
  predicate TakesLastName(t: Tools, d: Disk, id: Id, k: nat, s: Source, j: nat)
    requires k <= |Promote(t, d, id).ops|
  {
    var m := Run(d, Promote(t, d, id).ops[..k]);
    && WINDOW_START <= k < WindowEnd(d, id)
    && s.id != id && Marked(t, m, s, j)
    && (NamedBy(d.roles, Fallback, id) && k < Demoted(d, id) ==>
          Promoting(t, m, s, j) >= Demoted(Do(m, Stage(t, m, s)), s.id))
  }

  lemma {:induction false} LastNameTaken(t: Tools, d: Disk, m: Disk, id: Id, k: nat, s: Source, j: nat)
    requires k <= |Promote(t, d, id).ops| && m == Run(d, Promote(t, d, id).ops[..k])
    requires Current in d.roles && d.roles[Current] != id && Current in m.roles && StoppedAt(d, m, id, k)
    ensures KeepsCurrent(t, m, s, j) <==> !TakesLastName(t, d, id, k, s, j)
    ensures TakesLastName(t, d, id, k, s, j) ==> FallbackEfi in m.esp && m.esp[CurrentEfi].id == id
  {
  }

  /**
   A promotion stopped after `k` operations, then a deploy of any image stopped (or dying) after `j`: both entries
   are complete and held if and only if the deploy has not taken the last name from the promoted image.
   */
  lemma {:induction false} NextDeployStopped(t: Tools, d: Disk, id: Id, k: nat, s: Source, j: nat)
    requires Consistent(t, d) && NamedBy(d.roles, Staging, id) && SourceOk(t, s)
    requires Current in d.roles && d.roles[Current] != id && Staged(d, id).Some? && k <= |Promote(t, d, id).ops|
    requires j <= |Deploy(t, Run(d, Promote(t, d, id).ops[..k]), s).ops|
    ensures var m := Run(d, Promote(t, d, id).ops[..k]);
            EspSafe(t, Run(m, Deploy(t, m, s).ops[..j])) <==> !TakesLastName(t, d, id, k, s, j)
  {
    var m := Run(d, Promote(t, d, id).ops[..k]);
    StoppedPromotion(t, d, id, k);
    LastNameTaken(t, d, m, id, k, s, j);
    NamedIsKept(t, m, s, j);
    StoppedDeployExactly(t, m, s, j);
  }

  /** The deployment is gone, and these of the entries name it, when a promotion is `k` operations old. */
  ghost predicate Dangles(r: Disk, id: Id, k: nat) {
    && id !in r.dirs && CurrentEfi in r.esp
    && (k < WINDOW_START ==> r.esp[CurrentEfi].id == id)
    && (k >= FALLBACK_COPIED ==> FallbackEfi in r.esp && r.esp[FallbackEfi].id == id)
  }

  /**
   And what a gc then makes of it: the promoted image's deployment is gone, the current entry names it until the
   third image takes its place, the fallback entry from when it has been copied; in between nothing boots.
   */
  lemma {:induction false} NextDeployStoppedThenGc(t: Tools, d: Disk, id: Id, k: nat, s: Source, j: nat)
    requires ToolsOk(t) && Consistent(t, d) && NamedBy(d.roles, Staging, id) && SourceOk(t, s)
    requires Current in d.roles && d.roles[Current] != id && Staged(d, id).Some? && k <= |Promote(t, d, id).ops|
    requires j <= |Deploy(t, Run(d, Promote(t, d, id).ops[..k]), s).ops|
    ensures var m := Run(d, Promote(t, d, id).ops[..k]);
            var x := Run(m, Deploy(t, m, s).ops[..j]);
            var r := Run(x, Gc(t, x));
            && (TakesLastName(t, d, id, k, s, j) ==> Dangles(r, id, Promoting(t, m, s, j)))
            && (CanBoot(t, r) <==>
                  !(TakesLastName(t, d, id, k, s, j) && FALLBACK_COPIED <= Promoting(t, m, s, j) < WINDOW_START))
  {
    var m := Run(d, Promote(t, d, id).ops[..k]);
    StoppedPromotion(t, d, id, k);
    LastNameTaken(t, d, m, id, k, s, j);
    NamedIsKept(t, m, s, j);
    StartsAfterStoppedDeploy(t, m, s, j);
    if TakesLastName(t, d, id, k, s, j) { GcAfterStoppedDeploy(t, m, s, j); }
  }

  // ------------------------------------------- after a rollback that stopped

  /** A rollback of `d` stopped after `k` operations, at `m`: which operations of a deploy leave the ESP safe. */
  predicate SafeAfterRollback(t: Tools, d: Disk, m: Disk, k: nat, s: Source, j: nat)
    requires Reversible(d)
  {
    if k < FALLBACK_COPIED || k == |Rollback(d).ops| then true
    else if k < FirstFlip(d) then
      !Marked(t, m, s, j) || s.id == d.roles[Fallback]
      || Promoting(t, m, s, j) < Demoted(Do(m, Stage(t, m, s)), s.id)
    else if Marked(t, m, s, j) then Promoting(t, m, s, j) >= FALLBACK_COPIED || s.id == d.roles[Current]
    else NamedBy(d.roles, Staging, d.roles[Current])
  }

  lemma {:induction false} HalfwayBack(t: Tools, d: Disk, k: nat)
    requires Consistent(t, d) && Reversible(d) && k <= |Rollback(d).ops|
    ensures Halfway(t, Run(d, Rollback(d).ops[..k]))
  {
    ConsistentFallback(t, d);
    ConsistentSteps(t, d, k);
    RollbackKeepsCurrent(t, d, k);
  }

  /** Entries and roles `k` operations into a rollback. */
  ghost predicate RolledTo(d: Disk, m: Disk, k: nat)
    requires Reversible(d) && k <= |Rollback(d).ops|
  {
    && CurrentEfi in m.esp && m.esp[CurrentEfi].id == (if k < 2 then d.roles[Current] else d.roles[Fallback])
    && (FallbackEfi in m.esp <==> k != 2)
    && (k != 2 ==> m.esp[FallbackEfi].id == if k < 2 then d.roles[Fallback] else d.roles[Current])
    && m.roles == if k < FirstFlip(d) then d.roles
                  else if k < |Rollback(d).ops| then d.roles[Current := d.roles[Fallback]]
                  else d.roles[Current := d.roles[Fallback]][Fallback := d.roles[Current]]
  }

  lemma {:induction false} RolledToAfter(t: Tools, d: Disk, k: nat)
    requires Consistent(t, d) && Reversible(d) && k <= |Rollback(d).ops|
    ensures RolledTo(d, Run(d, Rollback(d).ops[..k]), k) && d.roles[Current] != d.roles[Fallback]
  {
    ConsistentFallback(t, d);
    ConsistentSteps(t, d, k);
  }

  lemma {:induction false} CurrentThenNamed(t: Tools, d: Disk, m: Disk, k: nat, s: Source, j: nat)
    requires Reversible(d) && k <= |Rollback(d).ops| && RolledTo(d, m, k) && d.roles[Current] != d.roles[Fallback]
    ensures KeepsCurrent(t, m, s, j) <==>
              || k < FALLBACK_COPIED || k >= FirstFlip(d) || !Marked(t, m, s, j) || s.id == d.roles[Fallback]
              || Promoting(t, m, s, j) < Demoted(Do(m, Stage(t, m, s)), s.id)
  {
  }

  lemma {:induction false} FallbackThenNamed(t: Tools, d: Disk, m: Disk, k: nat, s: Source, j: nat)
    requires Reversible(d) && k <= |Rollback(d).ops| && RolledTo(d, m, k) && d.roles[Current] != d.roles[Fallback]
    ensures KeepsFallback(t, m, s, j) <==>
              || k < FirstFlip(d) || k == |Rollback(d).ops|
              || (if Marked(t, m, s, j) then Promoting(t, m, s, j) >= FALLBACK_COPIED || s.id == d.roles[Current]
                  else NamedBy(d.roles, Staging, d.roles[Current]))
  {
  }

  /**
   A rollback stopped after `k` operations, then a deploy of any image stopped (or dying) after `j`. A stop between
   the swap of the entries and the first role flip is safe until the deploy moves the fallback role; a stop between
   the flips is not, unless the demoted image is staged, until the fallback entry has been replaced.
   */
  lemma {:induction false} NextDeployAfterRollback(t: Tools, d: Disk, k: nat, s: Source, j: nat)
    requires Consistent(t, d) && Reversible(d) && k <= |Rollback(d).ops| && SourceOk(t, s)
    requires j <= |Deploy(t, Run(d, Rollback(d).ops[..k]), s).ops|
    ensures var m := Run(d, Rollback(d).ops[..k]);
            EspSafe(t, Run(m, Deploy(t, m, s).ops[..j])) <==> SafeAfterRollback(t, d, m, k, s, j)
  {
    HalfwayBack(t, d, k);
    RolledToAfter(t, d, k);
    var m := Run(d, Rollback(d).ops[..k]);
    CurrentThenNamed(t, d, m, k, s, j);
    FallbackThenNamed(t, d, m, k, s, j);
    StoppedDeployExactly(t, m, s, j);
  }

  // ------------------------------------- a rollback after a stopped promotion

  lemma {:induction false} RollbackLaws(t: Tools, m: Disk)
    requires Inv(t, m)
    ensures Inv(t, Do(m, Rollback(m)))
  {
    RollbackLegal(t, m);
    LegalKeeps(t, m, Rollback(m).ops);
  }

  /** Entries and roles have changed places. */
  ghost predicate ChangedPlaces(m: Disk, r: Disk)
    requires Reversible(m)
  {
    && CurrentEfi in r.esp && r.esp[CurrentEfi] == m.esp[FallbackEfi]
    && FallbackEfi in r.esp && r.esp[FallbackEfi] == m.esp[CurrentEfi]
    && r.roles == m.roles[Current := m.roles[Fallback]][Fallback := m.roles[Current]]
  }

  lemma {:induction false} RolledBack(t: Tools, m: Disk)
    requires Reversible(m)
    ensures Do(m, Rollback(m)).dirs == m.dirs && ChangedPlaces(m, Do(m, Rollback(m)))
  {
    var ops := Rollback(m).ops;
    assert ops[..|ops|] == ops;
    RollbackSteps(t, m, |ops|);
    SwappedEntries(m.esp, |ops|);
  }

  lemma {:induction false} RolledBackHeld(t: Tools, m: Disk, r: Disk)
    requires Reversible(m) && ChangedPlaces(m, r) && r.dirs == m.dirs && EspSafe(t, m)
    ensures EspSafe(t, r)
  {
  }

  /** When entries and roles agree after a rollback of a promotion stopped after `k` operations. */
  lemma {:induction false} RolledBackAgree(t: Tools, d: Disk, m: Disk, r: Disk, id: Id, image: Image, k: nat)
    requires Agree(t, d) && NamedBy(d.roles, Staging, id) && Current in d.roles && d.roles[Current] != id
    requires SteppedTo(d, m, id, image, k) && image.id == id && Reversible(m) && ChangedPlaces(m, r) && EspSafe(t, r)
    ensures InStep(r) <==> k < FALLBACK_COPIED || k >= Demoted(d, id)
    ensures Agree(t, r) <==> k < FALLBACK_COPIED || k >= WindowEnd(d, id)
  {
  }

  /** What there is to roll back to after a promotion stopped after `k` operations. */
  lemma {:induction false} ReversibleThen(t: Tools, d: Disk, m: Disk, id: Id, image: Image, k: nat)
    requires Agree(t, d) && Current in d.roles && d.roles[Current] != id && SteppedTo(d, m, id, image, k)
    ensures Rollback(m).ok <==> Fallback in d.roles || k >= Demoted(d, id)
    ensures Rollback(m).ok ==> Reversible(m)
  {
  }

  /**
   A rollback, instead, after a promotion stopped after `k` operations: it returns if and only if there was a
   fallback role or the promotion got as far as setting it. Both entries are then safe; they are in step with the
   current role unless the old current image had been copied over the fallback entry and the fallback role not
   been moved, and the host is consistent if and only if the promotion had not begun, or was past the window.
   */
  lemma {:induction false} RollbackAfterPromotion(t: Tools, d: Disk, id: Id, k: nat)
    requires Consistent(t, d) && NamedBy(d.roles, Staging, id)
    requires Current in d.roles && d.roles[Current] != id && Staged(d, id).Some? && k <= |Promote(t, d, id).ops|
    ensures var m := Run(d, Promote(t, d, id).ops[..k]);
            var r := Do(m, Rollback(m));
            && (Rollback(m).ok <==> Fallback in d.roles || k >= Demoted(d, id))
            && (Rollback(m).ok ==>
                  && EspSafe(t, r)
                  && (InStep(r) <==> k < FALLBACK_COPIED || k >= Demoted(d, id))
                  && (Consistent(t, r) <==> k < FALLBACK_COPIED || k >= WindowEnd(d, id)))
  {
    var m := Run(d, Promote(t, d, id).ops[..k]);
    StoppedLaws(t, d, id, k);
    PromoteSteps(t, d, id, k);
    StagedImage(t, d, id);
    ReversibleThen(t, d, m, id, Staged(d, id).value, k);
    if Rollback(m).ok {
      var r := Do(m, Rollback(m));
      RollbackLaws(t, m);
      RolledBack(t, m);
      RolledBackHeld(t, m, r);
      RolledBackAgree(t, d, m, r, id, Staged(d, id).value, k);
    }
  }
}
