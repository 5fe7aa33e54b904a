/**
 Concrete runs for the six places where the code falls short of what one would like: each begins with a
 blank disk and ends in the state the exact conditions elsewhere describe.
 */
module Counterexamples {
  import opened Options
  import opened Pack
  import opened Coalesce
  import opened Filesystem
  import opened Objects
  import opened Transfer
  import opened Lifecycle
  import opened Safety
  import opened Rollbacks
  import opened Runs
  import opened Promotions
  import opened Stranded
  import opened Recovery
  import opened Reinstall
  import opened Sealing
  import opened Unsealed
  import opened Wedge
  import opened Completion

  ghost function Listing<T>(s: set<T>): seq<T> {
    if s == {} then [] else var x :| x in s; [x] + Listing(s - {x})
  }

  lemma {:induction false} ListingLists<T>(s: set<T>)
    ensures Elems(Listing(s)) == s && NoDup(Listing(s))
  {
    if s != {} {
      var x :| x in s && Listing(s) == [x] + Listing(s - {x});
      ListingLists(s - {x});
      assert x !in Elems(Listing(s - {x}));
      assert forall y :: y in Listing(s) <==> y == x || y in Listing(s - {x});
      forall y ensures y in Elems(Listing(s)) <==> y in s {
        assert y in Elems(Listing(s - {x})) <==> y in s - {x};
      }
    } else {
      assert Listing(s) == [];
    }
  }

  const HEX_DIGITS := "0123456789abcdef"

  function Base16(n: nat): (s: string)
    ensures s != [] && forall c | c in s :: c in HEX_DIGITS
  {
    if n < 16 then [HEX_DIGITS[n]] else Base16(n / 16) + [HEX_DIGITS[n % 16]]
  }

  /** A 64-digit name for each number. */
  function NameOf(n: nat): Digest {
    var h := Base16(n);
    if |h| < 64 then seq(64 - |h|, _ => '0') + h else h[|h| - 64..]
  }

  lemma {:induction false} NameIsDigest(n: nat)
    ensures IsDigest(NameOf(n))
  {
    forall c | c in NameOf(n) ensures c in HEX_DIGITS {
      assert '0' == HEX_DIGITS[0];
      assert c == '0' || c in Base16(n);
    }
  }

  /** The one object the images share, and its name. */
  const OBJECT: Bytes := [1]

  ghost function X(): Digest { NameOf(|OBJECT|) }

  /** A measure that tells files apart by their length; every image refers to the one object. */
  ghost function Sample(): Tools {
    Tools(b => NameOf(|b|), c => [X()], c => {}, s => Listing(s), s => Listing(s))
  }

  /** A length for each id, never that of the object, and different for different ids. */
  function Length(id: Id): nat {
    if id == [] then 2 else 0x11_0001 * Length(id[1..]) + id[0] as nat
  }

  function RootImage(id: Id): Bytes { seq(Length(id), _ => 7) }

  ghost function Artifact(id: Id): Source {
    Source(id, NameOf(Length(id)), Some(Image(id, NameOf(Length(id)))), RootImage(id), None, Tree([(X(), OBJECT)]))
  }

  /** The sample's measure gives names of the form the store wants. */
  lemma {:induction false} SampleOk()
    ensures ToolsOk(Sample())
    ensures forall b: Bytes :: IsDigest(Sample().measure(b))
  {
    forall b: Bytes ensures IsDigest(Sample().measure(b)) { NameIsDigest(|b|); }
    forall s: set<Id> ensures Elems(Sample().readdir(s)) == s && NoDup(Sample().readdir(s)) { ListingLists(s); }
    forall s: set<Name> ensures Elems(Sample().walk(s)) == s { ListingLists(s); }
  }

  lemma {:induction false} ArtifactOk(id: Id)
    requires PlainName(id)
    ensures SourceOk(Sample(), Artifact(id))
  {
    var f: (Digest, Bytes) := (X(), OBJECT);
    assert f in [f];
    assert Needed(Sample(), RootImage(id)) == {X()};
    assert X() in Supplied(Artifact(id).supply);
  }

  /** It lands, whatever the store has. */
  lemma {:induction false} ArtifactLands(d: Disk, id: Id)
    requires Inv(Sample(), d) && PlainName(id)
    ensures Landed(Sample(), d, Artifact(id)).ok
  {
    var mk := Apply(d, MkDir(id));
    ApplyKeeps(Sample(), d, MkDir(id));
    LandPiecesEffect(Sample(), mk, TreePieces([(X(), OBJECT)]));
  }

  lemma {:induction false} ArtifactDeploys(d: Disk, id: Id)
    requires Inv(Sample(), d) && PlainName(id) && !HasCfs(d, id) && Get(d, Current) != Some(id)
    ensures Stage(Sample(), d, Artifact(id)).ok && Deploy(Sample(), d, Artifact(id)).ok
    ensures Staged(Do(d, Stage(Sample(), d, Artifact(id))), id).Some?
  {
    ArtifactOk(id);
    ArtifactLands(d, id);
    CleanRetry(Sample(), d, Artifact(id));
    DeploySteps(Sample(), d, Artifact(id));
  }

  /** After a deploy of a new image the roles have moved on, and no other deployment has appeared. */
  lemma {:induction false} AfterDeploy(d: Disk, id: Id)
    requires Consistent(Sample(), d) && PlainName(id) && !HasCfs(d, id) && Get(d, Current) != Some(id)
    ensures var r := Do(d, Deploy(Sample(), d, Artifact(id)));
            && Consistent(Sample(), r) && Get(r, Current) == Some(id) && Get(r, Staging) == None
            && Get(r, Fallback) == (if Get(d, Current).Some? then Get(d, Current) else Get(d, Fallback))
            && forall i | i != id && HasCfs(r, i) :: HasCfs(d, i)
  {
    var t, s := Sample(), Artifact(id);
    var n := Do(d, Stage(t, d, s));
    SampleOk();
    ArtifactOk(id);
    ArtifactDeploys(d, id);
    DeployConsistent(t, d, s);
    DeploySteps(t, d, s);
    StageQuietly(t, d, s);
    PromoteEffect(t, n, id);
    StageAddsOne(d, id);
    PromoteAddsNone(n, id);
  }

  lemma {:induction false} StageAddsOne(d: Disk, id: Id)
    requires Inv(Sample(), d) && PlainName(id) && !HasCfs(d, id) && Get(d, Current) != Some(id)
    ensures forall i | i != id && HasCfs(Do(d, Stage(Sample(), d, Artifact(id))), i) :: HasCfs(d, i)
  {
    ArtifactOk(id);
    ArtifactDeploys(d, id);
    StageHolds(Sample(), d, Artifact(id));
  }

  lemma {:induction false} PromoteAddsNone(n: Disk, id: Id)
    requires Inv(Sample(), n) && Get(n, Current) != Some(id) && Staged(n, id).Some?
    ensures forall i | HasCfs(Do(n, Promote(Sample(), n, id)), i) :: HasCfs(n, i)
  {
    SampleOk();
    Flipped(Sample(), n, id);
    FlipThenGc(Sample(), n, id);
    GcKeepsHeld(Sample(), Run(n, Flip(n, id, Staged(n, id).value)));
  }

  // ------------------------------------------------ promote, crash, deploy

  /** A host with `a` deployed. */
  ghost function Deployed(a: Id): Disk { Do(BLANK, Deploy(Sample(), BLANK, Artifact(a))) }

  lemma {:induction false} DeployedIs(a: Id)
    requires PlainName(a)
    ensures Consistent(Sample(), Deployed(a)) && Get(Deployed(a), Current) == Some(a)
    ensures Get(Deployed(a), Fallback) == None
    ensures forall i | i != a :: !HasCfs(Deployed(a), i)
  {
    BlankIsConsistent(Sample());
    AfterDeploy(BLANK, a);
  }

  lemma {:induction false} StagedKeeps(d: Disk, b: Id)
    requires Consistent(Sample(), d) && PlainName(b)
    ensures Consistent(Sample(), Do(d, Stage(Sample(), d, Artifact(b))))
    ensures var n := Do(d, Stage(Sample(), d, Artifact(b)));
            Get(n, Current) == Get(d, Current) && Get(n, Fallback) == Get(d, Fallback)
  {
    var ops := Stage(Sample(), d, Artifact(b)).ops;
    ArtifactOk(b);
    assert ops[..|ops|] == ops;
    StageConsistent(Sample(), d, Artifact(b), |ops|);
    StageQuietly(Sample(), d, Artifact(b));
  }

  lemma {:induction false} StagedNext(d: Disk, b: Id, c: Id)
    requires Consistent(Sample(), d) && PlainName(b) && !HasCfs(d, b) && Get(d, Current) != Some(b)
    requires c != b && !HasCfs(d, c)
    ensures var n := Do(d, Stage(Sample(), d, Artifact(b)));
            && Consistent(Sample(), n) && NamedBy(n.roles, Staging, b)
            && Get(n, Current) == Get(d, Current) && Get(n, Fallback) == Get(d, Fallback)
            && Staged(n, b).Some? && !HasCfs(n, c)
  {
    StagedKeeps(d, b);
    ArtifactDeploys(d, b);
    StageMarks(Sample(), d, Artifact(b));
    StageAddsOne(d, b);
  }

  lemma {:induction false} StoppedAtFour(d: Disk, b: Id)
    requires Consistent(Sample(), d) && NamedBy(d.roles, Staging, b) && Staged(d, b).Some?
    requires Current in d.roles && d.roles[Current] != b
    ensures var ops := Promote(Sample(), d, b).ops;
            && 4 <= |ops|
            && var m := Run(d, ops[..4]);
               Inv(Sample(), m) && EspSafe(Sample(), m) && m.dirs == d.dirs && m.roles == d.roles
               && CurrentEfi in m.esp && m.esp[CurrentEfi].id == b
  {
    PromoteSteps(Sample(), d, b, 0);
    PromoteSteps(Sample(), d, b, 4);
    AlwaysPromote(Sample(), d, b);
    WindowIsExact(Sample(), d, b, 4);
  }

  lemma {:induction false} ThenThird(m: Disk, b: Id, c: Id)
    requires Inv(Sample(), m) && EspSafe(Sample(), m) && PlainName(c) && !HasCfs(m, c)
    requires CurrentEfi in m.esp && m.esp[CurrentEfi].id == b && Current in m.roles && m.roles[Current] != b
    requires m.roles[Current] != c && b != c
    ensures Deploy(Sample(), m, Artifact(c)).ok
    ensures var r := Do(m, Deploy(Sample(), m, Artifact(c)));
            FallbackEfi in r.esp && r.esp[FallbackEfi].id == b && b !in r.dirs
  {
    ArtifactDeploys(m, c);
    ArtifactOk(c);
    SampleOk();
    NextDeployExactly(Sample(), m, Artifact(c));
  }

  /**
   The promotion of `b` stops after four operations; everything still boots. Then `c` is deployed, and finishes.
   The fallback entry names `b`, whose directory is gone.
   */
  ghost predicate Strands(d: Disk, b: Id, c: Id) {
    var ops := Promote(Sample(), d, b).ops;
    && 4 <= |ops|
    && var m := Run(d, ops[..4]);
       var r := Do(m, Deploy(Sample(), m, Artifact(c)));
       && EspSafe(Sample(), m) && Deploy(Sample(), m, Artifact(c)).ok
       && FallbackEfi in r.esp && r.esp[FallbackEfi].id == b && b !in r.dirs
  }

  lemma {:induction false} StrandsFrom(d: Disk, b: Id, c: Id)
    requires Consistent(Sample(), d) && NamedBy(d.roles, Staging, b) && Staged(d, b).Some?
    requires Current in d.roles && d.roles[Current] != b && d.roles[Current] != c && b != c
    requires PlainName(c) && !HasCfs(d, c)
    ensures Strands(d, b, c)
  {
    StoppedAtFour(d, b);
    ThenThird(Run(d, Promote(Sample(), d, b).ops[..4]), b, c);
  }

  /** `d` with `b` staged. */
  ghost function Prepared(d: Disk, b: Id): Disk { Do(d, Stage(Sample(), d, Artifact(b))) }

  lemma {:induction false} PreparedStrands(d: Disk, b: Id, c: Id)
    requires Consistent(Sample(), d) && PlainName(b) && PlainName(c) && !HasCfs(d, b) && !HasCfs(d, c) && b != c
    requires Current in d.roles && d.roles[Current] != b && d.roles[Current] != c
    ensures Strands(Prepared(d, b), b, c)
  {
    StagedNext(d, b, c);
    StrandsFrom(Prepared(d, b), b, c);
  }

  lemma {:induction false} StrandedFallback(a: Id, b: Id, c: Id)
    requires PlainName(a) && PlainName(b) && PlainName(c) && a != b && b != c && a != c
    ensures Consistent(Sample(), Deployed(a)) && Strands(Prepared(Deployed(a), b), b, c)
  {
    DeployedIs(a);
    PreparedStrands(Deployed(a), b, c);
  }

  /** The promotion of `b` stops after `k` operations, a deploy after `j`, past its staging mark; and a gc. */
  ghost predicate StopsTwice(t: Tools, d: Disk, b: Id, k: nat, s: Source, j: nat, m: Disk, x: Disk, r: Disk) {
    && k <= |Promote(t, d, b).ops| && Leads(d, Promote(t, d, b).ops[..k], m) && EspSafe(t, m)
    && j <= |Deploy(t, m, s).ops| && Marked(t, m, s, j)
    && Leads(m, Deploy(t, m, s).ops[..j], x) && !EspSafe(t, x) && Leads(x, Gc(t, x), r)
  }

  /** Right after the mark, the current entry's deployment is what the gc takes; two operations on, nothing boots. */
  ghost predicate Loses(t: Tools, d: Disk, b: Id, k: nat, s: Source) {
    && (exists j, m, x, r :: StopsTwice(t, d, b, k, s, j, m, x, r) && Dangles(r, b, 0))
    && (exists j, m, x, r :: StopsTwice(t, d, b, k, s, j, m, x, r) && !CanBoot(t, r))
  }

  lemma {:induction false} PromotesFar(m: Disk, c: Id)
    requires Inv(Sample(), m) && PlainName(c) && !HasCfs(m, c)
    requires CurrentEfi in m.esp && Current in m.roles && m.roles[Current] != c
    ensures Stage(Sample(), m, Artifact(c)).ok
    ensures |Deploy(Sample(), m, Artifact(c)).ops| >= |Stage(Sample(), m, Artifact(c)).ops| + 2
  {
    var t, s := Sample(), Artifact(c);
    var n := Do(m, Stage(t, m, s));
    ArtifactDeploys(m, c);
    ArtifactOk(c);
    StageQuietly(t, m, s);
    PromoteSteps(t, n, c, 0);
    DeployOps(t, m, s, n);
  }

  /** Only the staging role names `b`, which the current entry names; the deploy has set its own mark. */
  lemma {:induction false} WhatItLoses(t: Tools, m: Disk, b: Id, s: Source, j: nat, x: Disk, r: Disk)
    requires ToolsOk(t) && Halfway(t, m) && SourceOk(t, s) && m.esp[CurrentEfi].id == b && b != s.id
    requires m.roles[Current] != b && Get(m, Fallback) != Some(b) && Marked(t, m, s, j) && j <= |Deploy(t, m, s).ops|
    requires Leads(m, Deploy(t, m, s).ops[..j], x) && Leads(x, Gc(t, x), r)
    ensures !EspSafe(t, x) && Dangles(r, b, Promoting(t, m, s, j))
    ensures FALLBACK_COPIED <= Promoting(t, m, s, j) < WINDOW_START ==> !CanBoot(t, r)
  {
    StoppedDeployExactly(t, m, s, j);
    GcAfterStoppedDeploy(t, m, s, j);
    StartsAfterStoppedDeploy(t, m, s, j);
  }

  lemma {:induction false} LosesWhen(t: Tools, d: Disk, b: Id, k: nat, s: Source, j: nat, m: Disk)
    returns (x: Disk, r: Disk)
    requires ToolsOk(t) && Halfway(t, m) && EspSafe(t, m) && SourceOk(t, s) && m.esp[CurrentEfi].id == b && b != s.id
    requires m.roles[Current] != b && Get(m, Fallback) != Some(b) && Marked(t, m, s, j) && j <= |Deploy(t, m, s).ops|
    requires k <= |Promote(t, d, b).ops| && Leads(d, Promote(t, d, b).ops[..k], m)
    ensures StopsTwice(t, d, b, k, s, j, m, x, r) && Dangles(r, b, Promoting(t, m, s, j))
    ensures FALLBACK_COPIED <= Promoting(t, m, s, j) < WINDOW_START ==> !CanBoot(t, r)
  {
    x := Reach(m, Deploy(t, m, s).ops[..j]);
    r := Reach(x, Gc(t, x));
    WhatItLoses(t, m, b, s, j, x, r);
  }

  lemma {:induction false} StoppedHalfway(d: Disk, b: Id) returns (m: Disk)
    requires Consistent(Sample(), d) && NamedBy(d.roles, Staging, b) && Staged(d, b).Some?
    requires Current in d.roles && d.roles[Current] != b
    ensures WINDOW_START <= |Promote(Sample(), d, b).ops|
    ensures Leads(d, Promote(Sample(), d, b).ops[..WINDOW_START], m)
    ensures Halfway(Sample(), m) && EspSafe(Sample(), m) && m.dirs == d.dirs && m.roles == d.roles
    ensures m.esp[CurrentEfi].id == b
  {
    StoppedAtFour(d, b);
    m := Reach(d, Promote(Sample(), d, b).ops[..WINDOW_START]);
    StoppedPromotion(Sample(), d, b, WINDOW_START);
  }

  lemma {:induction false} LosesFrom(d: Disk, b: Id, c: Id)
    requires Consistent(Sample(), d) && NamedBy(d.roles, Staging, b) && Staged(d, b).Some?
    requires Current in d.roles && d.roles[Current] != b && d.roles[Current] != c && b != c
    requires PlainName(c) && !HasCfs(d, c) && Get(d, Fallback) != Some(b)
    ensures Loses(Sample(), d, b, WINDOW_START, Artifact(c))
  {
    var m := StoppedHalfway(d, b);
    PromotesFar(m, c);
    ArtifactOk(c);
    SampleOk();
    var j := |Stage(Sample(), m, Artifact(c)).ops|;
    var x, r := LosesWhen(Sample(), d, b, WINDOW_START, Artifact(c), j, m);
    var y, z := LosesWhen(Sample(), d, b, WINDOW_START, Artifact(c), j + 2, m);
  }

  /** `a` is deployed, `b` staged, its promotion stops after four operations, the deploy of `c` stops too. */
  lemma {:induction false} LostCurrent(a: Id, b: Id, c: Id)
    requires PlainName(a) && PlainName(b) && PlainName(c) && a != b && b != c && a != c
    ensures Consistent(Sample(), Deployed(a))
    ensures Loses(Sample(), Prepared(Deployed(a), b), b, WINDOW_START, Artifact(c))
  {
    DeployedIs(a);
    StagedNext(Deployed(a), b, c);
    LosesFrom(Prepared(Deployed(a), b), b, c);
  }

  // --------------------------------------------------------- half a rollback

  /** `a`, then `b` is deployed; a rollback stops between the role flips; a gc removes `b`, which the fallback names. */
  lemma {:induction false} HalfRollback(a: Id, b: Id)
    requires PlainName(a) && PlainName(b) && a != b
    ensures var d := Do(Deployed(a), Deploy(Sample(), Deployed(a), Artifact(b)));
            && Consistent(Sample(), d) && Reversible(d) && FirstFlip(d) < |Rollback(d).ops|
            && var m := Run(d, Rollback(d).ops[..FirstFlip(d)]);
               var r := Run(m, Gc(Sample(), m));
               !EspSafe(Sample(), m) && FallbackEfi in r.esp && r.esp[FallbackEfi].id !in r.dirs
  {
    DeployedIs(a);
    AfterDeploy(Deployed(a), b);
    HalfBack(Do(Deployed(a), Deploy(Sample(), Deployed(a), Artifact(b))));
  }

  lemma {:induction false} HalfBack(d: Disk)
    requires Consistent(Sample(), d) && Fallback in d.roles && Get(d, Staging) == None
    ensures Reversible(d) && FirstFlip(d) < |Rollback(d).ops|
    ensures var m := Run(d, Rollback(d).ops[..FirstFlip(d)]);
            var r := Run(m, Gc(Sample(), m));
            !EspSafe(Sample(), m) && FallbackEfi in r.esp && r.esp[FallbackEfi].id !in r.dirs
  {
    ConsistentFallback(Sample(), d);
    SampleOk();
    RollbackSafeExactly(Sample(), d, FirstFlip(d));
    GcAfterHalfRollback(Sample(), d, FirstFlip(d));
  }

  // --------------------------------------------------------- half an install

  lemma {:induction false} ArtifactInstalls(d: Disk, a: Id)
    requires Inv(Sample(), d) && PlainName(a) && a !in d.dirs
    ensures Install(Sample(), d, Artifact(a)).ok
  {
    ArtifactOk(a);
    ArtifactLands(d, a);
    CleanInstall(Sample(), d, Artifact(a));
  }

  /** An installation stops after its ESP write: it cannot be run again, and a gc takes what the entry names. */
  ghost predicate HalfInstalls(t: Tools, d: Disk, s: Source, k: nat) {
    var ops := Install(t, d, s).ops;
    && k < |ops|
    && var m := Run(d, ops[..k]);
       var r := Run(m, Gc(t, m));
       && Install(t, m, s) == Plan([], false) && !EspSafe(t, m)
       && CurrentEfi in r.esp && r.esp[CurrentEfi].id == s.id && s.id !in r.dirs
  }

  lemma {:induction false} HalfInstallsWhen(t: Tools, d: Disk, s: Source, k: nat)
    requires ToolsOk(t) && Consistent(t, d) && SourceOk(t, s) && s.id !in d.dirs && !RoleHeld(d.roles, s.id)
    requires Install(t, d, s).ok && k == EspWritten(t, d, s)
    ensures HalfInstalls(t, d, s, k)
  {
    LinkComesLast(t, d, s);
    SecondInstallDies(t, d, s, k);
    StoppedInstallExactly(t, d, s, k);
    GcAfterStoppedInstall(t, d, s, k);
  }

  lemma {:induction false} HalfInstallIn(d: Disk, a: Id, k: nat)
    requires Consistent(Sample(), d) && PlainName(a) && a !in d.dirs && !RoleHeld(d.roles, a)
    requires k == EspWritten(Sample(), d, Artifact(a))
    ensures HalfInstalls(Sample(), d, Artifact(a), k)
  {
    ArtifactOk(a);
    SampleOk();
    ArtifactInstalls(d, a);
    HalfInstallsWhen(Sample(), d, Artifact(a), k);
  }

  lemma {:induction false} BlankHasRoom(d: Disk, a: Id)
    requires d == BLANK
    ensures Consistent(Sample(), d) && a !in d.dirs && !RoleHeld(d.roles, a)
  {
    BlankIsConsistent(Sample());
  }

  lemma {:induction false} HalfInstall(d: Disk, a: Id, k: nat)
    requires d == BLANK && PlainName(a) && k == EspWritten(Sample(), d, Artifact(a))
    ensures HalfInstalls(Sample(), d, Artifact(a), k)
  {
    BlankHasRoom(d, a);
    HalfInstallIn(d, a, k);
  }

  // ------------------------------------------------------- an unsealed object

  lemma {:induction false} FirstPiece(mk: Disk)
    requires Obj(X()) !in mk.shared && TreeTemp(X()) !in mk.shared
    ensures var ps := TreePieces([(X(), OBJECT)]);
            var ops := LandPieces(Sample(), mk, ps).ops;
            |ops| == 3 && ops[1] == PlaceTemp(TreeTemp(X()), X())
  {
    var p := Piece(X(), OBJECT, true);
    var ps := TreePieces([(X(), OBJECT)]);
    assert ps == [p] && ps[1..] == [];
    var first := LandPiece(Sample(), mk, p);
    assert LandPieces(Sample(), mk, ps).ops == first.ops + [];
  }

  lemma {:induction false} ThirdOp(d: Disk, a: Id)
    requires Inv(Sample(), d) && PlainName(a) && !HasCfs(d, a) && Get(d, Current) != Some(a) && d.shared == map[]
    ensures var ops := Deploy(Sample(), d, Artifact(a)).ops;
            |ops| >= 3 && ops[2] == PlaceTemp(TreeTemp(X()), X())
  {
    ArtifactOk(a);
    var rest := DeployTail(Sample(), d, Artifact(a));
    FirstPiece(Apply(d, MkDir(a)));
    assert Landing(Sample(), d, Artifact(a))[2] == Landed(Sample(), d, Artifact(a)).ops[1];
  }

  lemma {:induction false} AfterThird(d: Disk, a: Id)
    requires Inv(Sample(), d) && PlainName(a) && !HasCfs(d, a) && Get(d, Current) != Some(a)
    requires MidSeal(Deploy(Sample(), d, Artifact(a)).ops, 3)
    ensures Deploy(Sample(), Run(d, Deploy(Sample(), d, Artifact(a)).ops[..3]), Artifact(a)).ok
  {
    var ops := Deploy(Sample(), d, Artifact(a)).ops;
    ArtifactOk(a);
    MidSealIsEarly(Sample(), d, Artifact(a), 3);
    DeployLegal(Sample(), d, Artifact(a));
    LegalPrefix(Sample(), d, ops, 3);
    LegalKeeps(Sample(), d, ops[..3]);
    ArtifactDeploys(Run(d, ops[..3]), a);
  }

  /** A deploy stops after `k` operations, and is run again: it returns, and what is now current will not mount. */
  ghost predicate EndsUnmountable(t: Tools, d: Disk, s: Source, k: nat) {
    var ops := Deploy(t, d, s).ops;
    && k <= |ops|
    && var m := Run(d, ops[..k]);
       var r := Do(m, Deploy(t, m, s));
       && Deploy(t, m, s).ok
       && CurrentEfi in r.esp && r.esp[CurrentEfi].id == s.id && !Mounts(t, r, r.esp[CurrentEfi])
  }

  lemma {:induction false} UnmountableWhen(t: Tools, d: Disk, s: Source, k: nat)
    requires ToolsOk(t) && Inv(t, d) && AllSealed(d) && TempsPlain(d) && SourceOk(t, s)
    requires !HasCfs(d, s.id) && Get(d, Current) != Some(s.id)
    requires MidSeal(Deploy(t, d, s).ops, k) && Deploy(t, d, s).ops[k - 1].digest in Needed(t, s.cfs)
    requires Deploy(t, Run(d, Deploy(t, d, s).ops[..k]), s).ok
    ensures EndsUnmountable(t, d, s, k)
  {
    RedeployExactly(t, d, s, k, s);
  }

  lemma {:induction false} ThirdIsMidSeal(d: Disk, a: Id)
    requires Inv(Sample(), d) && PlainName(a) && !HasCfs(d, a) && Get(d, Current) != Some(a) && d.shared == map[]
    ensures MidSeal(Deploy(Sample(), d, Artifact(a)).ops, 3)
    ensures Deploy(Sample(), d, Artifact(a)).ops[2].digest in Needed(Sample(), Artifact(a).cfs)
  {
    ThirdOp(d, a);
  }

  lemma {:induction false} BareIsSealed(d: Disk)
    requires d.shared == map[]
    ensures AllSealed(d) && TempsPlain(d)
  {
  }

  lemma {:induction false} RunAgain(t: Tools, s: Source, d: Disk, a: Id)
    requires t == Sample() && s == Artifact(a)
    requires Inv(t, d) && PlainName(a) && !HasCfs(d, a) && Get(d, Current) != Some(a) && d.shared == map[]
    ensures EndsUnmountable(t, d, s, 3)
  {
    ThirdIsMidSeal(d, a);
    BareIsSealed(d);
    ArtifactOk(a);
    SampleOk();
    AfterThird(d, a);
    UnmountableWhen(t, d, s, 3);
  }

  lemma {:induction false} UnsealedCurrent(a: Id)
    requires PlainName(a)
    ensures EndsUnmountable(Sample(), BLANK, Artifact(a), 3)
  {
    BlankIsConsistent(Sample());
    RunAgain(Sample(), Artifact(a), BLANK, a);
  }

  // ------------------------------------------------------------- a wedged id

  /** A stage of `a` stops after the copy of `root.cfs`; every retry, after retries and gcs stopped anywhere, dies. */
  lemma {:induction false} WedgedDeploy(a: Id, events: seq<Event>) returns (k: nat, d: Disk)
    requires PlainName(a)
    ensures k <= |Stage(Sample(), BLANK, Artifact(a)).ops|
    ensures var m := Run(BLANK, Stage(Sample(), BLANK, Artifact(a)).ops[..k]);
            Wedged(m, a) && d == Do(m, Deploy(Sample(), m, Artifact(a)))
    ensures Retries(events, Artifact(a)) ==> !Deploy(Sample(), History(Sample(), d, events), Artifact(a)).ok
  {
    var t, s := Sample(), Artifact(a);
    var ops := Stage(t, BLANK, s).ops;
    BlankIsConsistent(Sample());
    ArtifactOk(a);
    SampleOk();
    ArtifactDeploys(BLANK, a);
    var tail := WholeBlocks(t, BLANK, s, a);
    k := |Landing(t, BLANK, s)| + 1;
    WedgedExactly(t, BLANK, s, k);
    StageConsistent(t, BLANK, s, k);
    StoppedStage(a, k);
    var m := Run(BLANK, ops[..k]);
    RetryDies(t, m, s);
    d := Do(m, Deploy(t, m, s));
    if Retries(events, s) { StuckForGood(t, d, s, events); }
  }

  lemma {:induction false} StoppedStage(a: Id, k: nat)
    requires PlainName(a) && k <= |Stage(Sample(), BLANK, Artifact(a)).ops|
    ensures Get(Run(BLANK, Stage(Sample(), BLANK, Artifact(a)).ops[..k]), Current) == None
  {
    var t, s := Sample(), Artifact(a);
    var ops := Stage(t, BLANK, s).ops;
    BlankIsConsistent(Sample());
    ArtifactOk(a);
    StageLegal(t, BLANK, s);
    StageQuiet(t, BLANK, s, {});
    LegalPrefix(t, BLANK, ops, k);
    QuietOpsKeep(t, BLANK, ops[..k], {});
  }

  // -------------------------------------------------- a bad object in the pack

  /** Two wanted objects a kilobyte apart, the second of which is not what its name says. */
  function TwoWanted(): seq<Entry> { [Entry(0, 1, NameOf(1)), Entry(1024, 1, NameOf(2))] }

  function OneByte(a: int, b: int): Bytes { [7] }

  lemma {:induction false} NamesDiffer()
    ensures NameOf(1) != NameOf(2)
  {
    assert NameOf(1)[63] == '1' && NameOf(2)[63] == '2';
  }

  lemma {:induction false} TwoRanges()
    ensures Coalesced(TwoWanted(), 0)
         == [Range(0, 0, [Entry(0, 1, NameOf(1))]), Range(1024, 1024, [Entry(0, 1, NameOf(2))])]
  {
    var a, b := Entry(0, 1, NameOf(1)), Entry(1024, 1, NameOf(2));
    assert TwoWanted()[1..] == [b] && [b][1..] == [];
    assert CoalesceFrom(Open(b), [], 0) == [Open(b)];
    assert CoalesceFrom(Open(a), [b], 0) == [Open(a)] + [Open(b)];
  }

  lemma {:induction false} TwoAreMissing(d: Disk)
    requires d.shared == map[]
    ensures DistinctDigests(TwoWanted()) && forall e | e in TwoWanted() :: !Has(d, e.digest)
  {
    NamesDiffer();
  }

  /** What comes back for either range is one byte, which is the first object and not the second. */
  lemma {:induction false} FirstBeginsSecondBad(d: Disk)
    requires d.shared == map[]
    ensures var ranges := Coalesced(TwoWanted(), 0);
            |ranges| == 2 && Begins(Sample(), ranges, OneByte, 0) && !Good(Sample(), d, ranges, OneByte, 1)
  {
    var ranges := Coalesced(TwoWanted(), 0);
    TwoRanges();
    NamesDiffer();
    var p := Cut(ranges, OneByte, 1)[0];
    assert p == Piece(NameOf(2), [7], false) && p in Cut(ranges, OneByte, 1);
    assert Cut(ranges, OneByte, 0)[0] == Piece(NameOf(1), [7], false);
  }

  lemma {:induction false} NeitherReturns(d: Disk, ranges: seq<Range>, order: seq<nat>)
    requires Inv(Sample(), d) && DistinctDigests(Flatten(ranges)) && |ranges| == 2 && 0 in order && 1 in order
    requires !Good(Sample(), d, ranges, OneByte, 1)
    ensures !LandRanges(Sample(), d, ranges, OneByte, order).ok
  {
    ArriveMeansGood(Sample(), d, ranges, OneByte);
    LandRangesReturn(Sample(), d, ranges, OneByte, order);
  }

  /** The landing of `ranges` in this order dies; does it leave `g` in the store? */
  ghost predicate DiesWith(d: Disk, ranges: seq<Range>, order: seq<nat>, g: Digest, there: bool) {
    var p := LandRanges(Sample(), d, ranges, OneByte, order);
    !p.ok && (Has(Do(d, p), g) <==> there)
  }

  lemma {:induction false} OrderShowsIn(d: Disk, ranges: seq<Range>)
    requires Inv(Sample(), d) && DistinctDigests(Flatten(ranges)) && |ranges| == 2
    requires NoneEmpty(ranges) && AllMissing(d, ranges)
    requires Begins(Sample(), ranges, OneByte, 0) && !Good(Sample(), d, ranges, OneByte, 1)
    ensures DiesWith(d, ranges, [0] + [1], Leader(ranges, 0), true)
    ensures DiesWith(d, ranges, [1] + [0], Leader(ranges, 0), false)
  {
    NeitherReturns(d, ranges, [0] + [1]);
    NeitherReturns(d, ranges, [1] + [0]);
    OrdersDiffer(Sample(), d, ranges, OneByte, 0, 1, [1], [0]);
  }

  lemma {:induction false} BothFull(ranges: seq<Range>)
    requires ranges == [Range(0, 0, [Entry(0, 1, NameOf(1))]), Range(1024, 1024, [Entry(0, 1, NameOf(2))])]
    ensures FullResponses(ranges, OneByte) && Leader(ranges, 0) == NameOf(1)
  {
  }

  /**
   Both fetches succeed, one object is bad: the landing dies in either order, but it leaves the good object in the
   store in the one and not in the other.
   */
  lemma {:induction false} OrderShows(d: Disk, ranges: seq<Range>, a: seq<nat>, b: seq<nat>)
    requires Inv(Sample(), d) && d.shared == map[] && ranges == Coalesced(TwoWanted(), 0)
    requires a == [0] + [1] && b == [1] + [0]
    ensures FullResponses(ranges, OneByte)
    ensures DiesWith(d, ranges, a, NameOf(1), true) && DiesWith(d, ranges, b, NameOf(1), false)
  {
    TwoRanges();
    BothFull(ranges);
    TwoAreMissing(d);
    FirstBeginsSecondBad(d);
    WantMissing(d, TwoWanted(), 0);
    OrderShowsIn(d, ranges);
  }
}
