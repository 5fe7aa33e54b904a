/**
 The fetch pool (`_land_pack_by_range`) when something is wrong with what arrives. `place_object` dies in the middle
 of the loop over completed fetches, so what has been placed by then can depend on the order of completion.
 Exactly when it does.
 */
module Completion {
  import opened Pack
  import opened Coalesce
  import opened Filesystem
  import opened Objects
  import opened Transfer

  // ------------------------------------------------------- names in the store

  predicate Has(d: Disk, g: Digest) { Obj(g) in d.shared }

  /** The disk a landing loop leaves, whether it returns or dies. */
  function AfterPieces(t: Tools, d: Disk, ps: seq<Piece>): Disk { Do(d, LandPieces(t, d, ps)) }

  lemma {:induction false} AfterPiecesStep(t: Tools, d: Disk, ps: seq<Piece>)
    requires Inv(t, d) && ps != []
    ensures var m := Do(d, LandPiece(t, d, ps[0]));
            && Inv(t, m)
            && (if Lands(t, d, ps[0]) then Adds(d, m, ps[0].digest)
                  && AfterPieces(t, d, ps) == AfterPieces(t, m, ps[1..])
                else AfterPieces(t, d, ps) == m && forall g :: Has(m, g) <==> Has(d, g))
  {
    var first := LandPiece(t, d, ps[0]);
    LandedNames(t, d, ps[0]);
    RunConcat(d, first.ops, LandPieces(t, Do(d, first), ps[1..]).ops);
  }

  /** It has what it had, nothing but its pieces besides, and its first piece if that lands. */
  lemma {:induction false} PiecesBound(t: Tools, d: Disk, ps: seq<Piece>, g: Digest)
    requires Inv(t, d)
    ensures Has(d, g) ==> Has(AfterPieces(t, d, ps), g)
    ensures Has(AfterPieces(t, d, ps), g) ==> Has(d, g) || exists p | p in ps :: p.digest == g
    ensures ps != [] && Lands(t, d, ps[0]) && g == ps[0].digest ==> Has(AfterPieces(t, d, ps), g)
    ensures ps != [] && !Lands(t, d, ps[0]) ==> (Has(AfterPieces(t, d, ps), g) <==> Has(d, g))
    decreases |ps|
  {
    if ps != [] {
      AfterPiecesStep(t, d, ps);
      if Lands(t, d, ps[0]) { PiecesBound(t, Do(d, LandPiece(t, d, ps[0])), ps[1..], g); }
      assert ps == [ps[0]] + ps[1..];
    }
  }

  // ------------------------------------------------------------ single ranges

  function Cut(ranges: seq<Range>, fetch: (int, int) -> Bytes, i: nat): seq<Piece>
    requires i < |ranges|
  {
    RangePieces(Response(ranges, fetch, i), ranges[i].objs)
  }

  predicate Full(ranges: seq<Range>, fetch: (int, int) -> Bytes, i: nat)
    requires i < |ranges|
  {
    |Response(ranges, fetch, i)| == ranges[i].Size()
  }

  /** The response to range `i` is of the right size, and all its objects land. */
  ghost predicate Good(t: Tools, d: Disk, ranges: seq<Range>, fetch: (int, int) -> Bytes, i: nat)
    requires i < |ranges|
  {
    Full(ranges, fetch, i) && AllLand(t, d, Cut(ranges, fetch, i))
  }

  /** It is of the right size, and the first object in it measures to its name. */
  predicate Begins(t: Tools, ranges: seq<Range>, fetch: (int, int) -> Bytes, i: nat)
    requires i < |ranges|
  {
    && Full(ranges, fetch, i) && Cut(ranges, fetch, i) != []
    && t.measure(Cut(ranges, fetch, i)[0].bytes) == Cut(ranges, fetch, i)[0].digest
  }

  /** What is done with one completed fetch. */
  function LandOne(t: Tools, d: Disk, ranges: seq<Range>, fetch: (int, int) -> Bytes, i: nat): Plan
    requires i < |ranges|
  {
    if Full(ranges, fetch, i) then LandPieces(t, d, Cut(ranges, fetch, i)) else Plan([], false)
  }

  lemma {:induction false} OrderStep(t: Tools, d: Disk, ranges: seq<Range>, fetch: (int, int) -> Bytes, order: seq<nat>)
    requires order != [] && order[0] < |ranges|
    ensures var first := LandOne(t, d, ranges, fetch, order[0]);
            LandRanges(t, d, ranges, fetch, order)
            == Then(first, LandRanges(t, Do(d, first), ranges, fetch, order[1..]))
  {
  }

  lemma {:induction false} CutFunctional(ranges: seq<Range>, fetch: (int, int) -> Bytes, i: nat)
    requires i < |ranges| && DistinctDigests(Flatten(ranges))
    ensures Functional(Cut(ranges, fetch, i))
  {
    PiecesFunctional(ranges, fetch, [i]);
    assert [i][1..] == [] && PiecesFor(ranges, fetch, [i]) == Cut(ranges, fetch, i) + [];
  }

  lemma {:induction false} GoodReturns(t: Tools, d: Disk, ranges: seq<Range>, fetch: (int, int) -> Bytes, i: nat)
    requires Inv(t, d) && i < |ranges| && DistinctDigests(Flatten(ranges))
    ensures LandOne(t, d, ranges, fetch, i).ok <==> Good(t, d, ranges, fetch, i)
  {
    CutFunctional(ranges, fetch, i);
    LandPiecesReturn(t, d, Cut(ranges, fetch, i));
  }

  lemma {:induction false} ArriveMeansGood(t: Tools, d: Disk, ranges: seq<Range>, fetch: (int, int) -> Bytes)
    ensures AllArrive(t, d, ranges, fetch) <==> forall i: nat | i < |ranges| :: Good(t, d, ranges, fetch, i)
  {
    if forall i: nat | i < |ranges| :: Good(t, d, ranges, fetch, i) {
      forall i: nat, p | FromRange(ranges, fetch, i, p) ensures Lands(t, d, p) {
        assert Good(t, d, ranges, fetch, i);
      }
      forall i | 0 <= i < |ranges| ensures |Response(ranges, fetch, i)| == ranges[i].Size() {
        assert Good(t, d, ranges, fetch, i);
      }
    }
    if AllArrive(t, d, ranges, fetch) {
      forall i: nat | i < |ranges| ensures Good(t, d, ranges, fetch, i) {
        forall p | p in Cut(ranges, fetch, i) ensures Lands(t, d, p) { assert FromRange(ranges, fetch, i, p); }
      }
    }
  }

  // --------------------------------------------------- where an order matters

  /** No wanted object is stored yet, and every range has one: so `_missing_objects` and the loop leave it. */
  ghost predicate AllMissing(d: Disk, ranges: seq<Range>) {
    forall i, k | 0 <= i < |ranges| && 0 <= k < |ranges[i].objs| :: !Has(d, ranges[i].objs[k].digest)
  }

  ghost predicate NoneEmpty(ranges: seq<Range>) { forall i | 0 <= i < |ranges| :: ranges[i].objs != [] }

  lemma {:induction false} CoalesceFromNonEmpty(cur: Range, rest: seq<Entry>, gap: nat)
    requires cur.objs != []
    ensures NoneEmpty(CoalesceFrom(cur, rest, gap))
    decreases |rest|
  {
    if rest != [] {
      if Joins(cur, rest[0], gap) {
        CoalesceFromNonEmpty(Extend(cur, rest[0]), rest[1..], gap);
      } else {
        CoalesceFromNonEmpty(Open(rest[0]), rest[1..], gap);
      }
    }
  }

  /** What one range's first object is called. */
  function Leader(ranges: seq<Range>, i: nat): Digest
    requires i < |ranges| && ranges[i].objs != []
  {
    ranges[i].objs[0].digest
  }

  /** If the range that completes first begins well, its first object is there in the end. */
  lemma {:induction false} LeaderStays(t: Tools, d: Disk, ranges: seq<Range>, fetch: (int, int) -> Bytes, i: nat,
                                       rest: seq<nat>)
    requires Inv(t, d) && i < |ranges| && ranges[i].objs != [] && Begins(t, ranges, fetch, i)
    ensures Has(Do(d, LandRanges(t, d, ranges, fetch, [i] + rest)), Leader(ranges, i))
  {
    var first := LandOne(t, d, ranges, fetch, i);
    var g := Leader(ranges, i);
    assert ([i] + rest)[1..] == rest;
    OrderStep(t, d, ranges, fetch, [i] + rest);
    PiecesBound(t, d, Cut(ranges, fetch, i), g);
    LandPiecesEffect(t, d, Cut(ranges, fetch, i));
    LegalKeeps(t, d, first.ops);
    var m := Do(d, first);
    var more := LandRanges(t, m, ranges, fetch, rest);
    LandRangesLegal(t, m, ranges, fetch, rest);
    StoreOpsExtend(t, m, more.ops);
    RunConcat(d, first.ops, more.ops);
  }

  /** If the range that completes first is bad, the loop dies in it, and no other range's object is placed. */
  lemma {:induction false} BadFirst(t: Tools, d: Disk, ranges: seq<Range>, fetch: (int, int) -> Bytes, j: nat,
                                    rest: seq<nat>, i: nat)
    requires Inv(t, d) && j < |ranges| && i < |ranges| && i != j && DistinctDigests(Flatten(ranges))
    requires NoneEmpty(ranges) && AllMissing(d, ranges) && !Good(t, d, ranges, fetch, j)
    ensures !Has(Do(d, LandRanges(t, d, ranges, fetch, [j] + rest)), Leader(ranges, i))
  {
    var g := Leader(ranges, i);
    assert ([j] + rest)[1..] == rest;
    OrderStep(t, d, ranges, fetch, [j] + rest);
    GoodReturns(t, d, ranges, fetch, j);
    assert !Has(d, g);
    if Full(ranges, fetch, j) {
      var ps := Cut(ranges, fetch, j);
      PiecesBound(t, d, ps, g);
      forall p | p in ps ensures p.digest != g {
        assert FromRange(ranges, fetch, j, p);
        var k := FromObject(ranges, fetch, j, p);
        if p.digest == g { OnePlace(ranges, j, k, i, 0); }
      }
    }
  }

  /** Two completion orders after which the stores differ: one object is there in the first and not in the second. */
  lemma {:induction false} OrdersDiffer(t: Tools, d: Disk, ranges: seq<Range>, fetch: (int, int) -> Bytes, i: nat,
                                        j: nat, a: seq<nat>, b: seq<nat>)
    requires Inv(t, d) && j < |ranges| && i < |ranges| && i != j && DistinctDigests(Flatten(ranges))
    requires NoneEmpty(ranges) && AllMissing(d, ranges) && Begins(t, ranges, fetch, i) && !Good(t, d, ranges, fetch, j)
    ensures Has(Do(d, LandRanges(t, d, ranges, fetch, [i] + a)), Leader(ranges, i))
    ensures !Has(Do(d, LandRanges(t, d, ranges, fetch, [j] + b)), Leader(ranges, i))
  {
    LeaderStays(t, d, ranges, fetch, i, a);
    BadFirst(t, d, ranges, fetch, j, b, i);
  }

  // -------------------------------------------------------------- the claim

  /** The store by name after a landing in this completion order. */
  function Outcome(t: Tools, d: Disk, ranges: seq<Range>, fetch: (int, int) -> Bytes, order: seq<nat>)
    : map<Digest, Bytes>
  {
    Contents(Do(d, LandRanges(t, d, ranges, fetch, order)))
  }

  ghost predicate OrderMatters(t: Tools, d: Disk, ranges: seq<Range>, fetch: (int, int) -> Bytes) {
    exists a, b | Completes(a, |ranges|) && Completes(b, |ranges|) ::
      Outcome(t, d, ranges, fetch, a) != Outcome(t, d, ranges, fetch, b)
  }

  ghost predicate SomeBegins(t: Tools, ranges: seq<Range>, fetch: (int, int) -> Bytes) {
    exists i: nat | i < |ranges| :: Begins(t, ranges, fetch, i)
  }

  ghost predicate AllBad(t: Tools, d: Disk, ranges: seq<Range>, fetch: (int, int) -> Bytes) {
    forall i: nat | i < |ranges| :: !Good(t, d, ranges, fetch, i)
  }

  lemma {:induction false} GoodBegins(t: Tools, d: Disk, ranges: seq<Range>, fetch: (int, int) -> Bytes, i: nat)
    requires i < |ranges| && NoneEmpty(ranges) && AllMissing(d, ranges)
    ensures Good(t, d, ranges, fetch, i) ==> Begins(t, ranges, fetch, i)
  {
    var p := Cut(ranges, fetch, i)[0];
    assert p in Cut(ranges, fetch, i) && p.digest == ranges[i].objs[0].digest;
  }

  /** Where every range is bad, the one that completes first decides. */
  lemma {:induction false} FirstDecides(t: Tools, d: Disk, ranges: seq<Range>, fetch: (int, int) -> Bytes,
                                        order: seq<nat>)
    returns (i: nat)
    requires Inv(t, d) && DistinctDigests(Flatten(ranges)) && AllBad(t, d, ranges, fetch)
    requires exists x | x in order :: x < |ranges|
    ensures i < |ranges| && LandRanges(t, d, ranges, fetch, order) == LandOne(t, d, ranges, fetch, i)
    decreases |order|
  {
    if order[0] < |ranges| {
      i := order[0];
      OrderStep(t, d, ranges, fetch, order);
      GoodReturns(t, d, ranges, fetch, i);
    } else {
      assert order == [order[0]] + order[1..];
      i := FirstDecides(t, d, ranges, fetch, order[1..]);
    }
  }

  /** A range that does not begin well places nothing. */
  lemma {:induction false} NothingPlaced(t: Tools, d: Disk, ranges: seq<Range>, fetch: (int, int) -> Bytes, i: nat)
    requires Inv(t, d) && i < |ranges| && NoneEmpty(ranges) && AllMissing(d, ranges) && !Begins(t, ranges, fetch, i)
    ensures Contents(Do(d, LandOne(t, d, ranges, fetch, i))) == Contents(d)
  {
    if Full(ranges, fetch, i) {
      var ps := Cut(ranges, fetch, i);
      var r := AfterPieces(t, d, ps);
      assert ps[0].digest == ranges[i].objs[0].digest;
      LandPiecesEffect(t, d, ps);
      StoreOpsExtend(t, d, LandPieces(t, d, ps).ops);
      assert !Lands(t, d, ps[0]);
      forall g ensures Obj(g) in r.shared <==> Obj(g) in d.shared { PiecesBound(t, d, ps, g); }
      SameContents(d, r);
    }
  }

  lemma {:induction false} SameOutcome(t: Tools, d: Disk, ranges: seq<Range>, fetch: (int, int) -> Bytes, a: seq<nat>,
                                       b: seq<nat>)
    requires Inv(t, d) && DistinctDigests(Flatten(ranges)) && NoneEmpty(ranges) && AllMissing(d, ranges)
    requires Completes(a, |ranges|) && Completes(b, |ranges|) && ranges != []
    requires AllBad(t, d, ranges, fetch) && (|ranges| == 1 || !SomeBegins(t, ranges, fetch))
    ensures Outcome(t, d, ranges, fetch, a) == Outcome(t, d, ranges, fetch, b)
  {
    assert 0 in a && 0 in b;
    var i := FirstDecides(t, d, ranges, fetch, a);
    var j := FirstDecides(t, d, ranges, fetch, b);
    if |ranges| == 1 {
      assert i == j;
    } else {
      NothingPlaced(t, d, ranges, fetch, i);
      NothingPlaced(t, d, ranges, fetch, j);
    }
  }

  /** Some order that begins with `i`. */
  function Starting(i: nat, n: nat): (order: seq<nat>)
    ensures order != [] && order == [i] + order[1..]
  {
    [i] + seq(n, k requires 0 <= k < n => k)
  }

  lemma {:induction false} StartingCompletes(i: nat, n: nat)
    ensures Completes(Starting(i, n), n)
  {
    forall k: nat | k < n ensures k in Starting(i, n) { assert Starting(i, n)[k + 1] == k; }
  }

  lemma {:induction false} DifferenceMatters(t: Tools, d: Disk, ranges: seq<Range>, fetch: (int, int) -> Bytes, i: nat,
                                             j: nat)
    requires Inv(t, d) && j < |ranges| && i < |ranges| && i != j && DistinctDigests(Flatten(ranges))
    requires NoneEmpty(ranges) && AllMissing(d, ranges) && Begins(t, ranges, fetch, i) && !Good(t, d, ranges, fetch, j)
    ensures OrderMatters(t, d, ranges, fetch)
  {
    var a, b := Starting(i, |ranges|), Starting(j, |ranges|);
    StartingCompletes(i, |ranges|);
    StartingCompletes(j, |ranges|);
    OrdersDiffer(t, d, ranges, fetch, i, j, a[1..], b[1..]);
    InContents(Do(d, LandRanges(t, d, ranges, fetch, a)), Leader(ranges, i));
    InContents(Do(d, LandRanges(t, d, ranges, fetch, b)), Leader(ranges, i));
    assert Outcome(t, d, ranges, fetch, a) != Outcome(t, d, ranges, fetch, b);
  }

  /** A range that begins well and another that is bad: there are two such, if there is one of each and two ranges. */
  lemma {:induction false} SomePairMatters(t: Tools, d: Disk, ranges: seq<Range>, fetch: (int, int) -> Bytes)
    requires Inv(t, d) && DistinctDigests(Flatten(ranges)) && NoneEmpty(ranges) && AllMissing(d, ranges)
    requires |ranges| >= 2 && SomeBegins(t, ranges, fetch) && !AllArrive(t, d, ranges, fetch)
    ensures OrderMatters(t, d, ranges, fetch)
  {
    ArriveMeansGood(t, d, ranges, fetch);
    var i: nat :| i < |ranges| && Begins(t, ranges, fetch, i);
    var j: nat :| j < |ranges| && !Good(t, d, ranges, fetch, j);
    if i != j {
      DifferenceMatters(t, d, ranges, fetch, i, j);
    } else {
      var k: nat := if i == 0 then 1 else 0;
      if Good(t, d, ranges, fetch, k) {
        GoodBegins(t, d, ranges, fetch, k);
        DifferenceMatters(t, d, ranges, fetch, k, j);
      } else {
        DifferenceMatters(t, d, ranges, fetch, i, k);
      }
    }
  }

  lemma {:induction false} AllArriveSame(t: Tools, d: Disk, want: seq<Entry>, gap: nat, fetch: (int, int) -> Bytes)
    requires Inv(t, d) && DistinctDigests(want) && AllArrive(t, d, Coalesced(want, gap), fetch)
    ensures !OrderMatters(t, d, Coalesced(want, gap), fetch)
  {
    var ranges := Coalesced(want, gap);
    CoalesceLossless(want, gap);
    forall a, b | Completes(a, |ranges|) && Completes(b, |ranges|)
      ensures Outcome(t, d, ranges, fetch, a) == Outcome(t, d, ranges, fetch, b)
    {
      LandRangesReturn(t, d, ranges, fetch, a);
      CompletionOrderIrrelevant(t, d, want, gap, fetch, a, b);
    }
  }

  lemma {:induction false} WantMissing(d: Disk, want: seq<Entry>, gap: nat)
    requires DistinctDigests(want) && forall e | e in want :: !Has(d, e.digest)
    ensures var ranges := Coalesced(want, gap);
            DistinctDigests(Flatten(ranges)) && NoneEmpty(ranges) && AllMissing(d, ranges)
  {
    var ranges := Coalesced(want, gap);
    CoalesceLossless(want, gap);
    if want != [] { CoalesceFromNonEmpty(Open(want[0]), want[1..], gap); }
    forall i, k | 0 <= i < |ranges| && 0 <= k < |ranges[i].objs| ensures !Has(d, ranges[i].objs[k].digest) {
      AbsoluteIn(ranges, i, k);
      assert Absolute(ranges[i])[k].digest == ranges[i].objs[k].digest;
    }
  }

  /**
   The order in which the fetches complete matters for what is left in the store if and only if there are two
   ranges or more, something that arrives is bad, and some full response begins with a good object. The landing
   dies then, in every order; where it returns, the order never matters.
   */
  lemma {:induction false} OrderMattersExactly(t: Tools, d: Disk, want: seq<Entry>, gap: nat,
                                               fetch: (int, int) -> Bytes)
    requires Inv(t, d) && DistinctDigests(want) && forall e | e in want :: !Has(d, e.digest)
    ensures var ranges := Coalesced(want, gap);
            OrderMatters(t, d, ranges, fetch) <==>
              |ranges| >= 2 && !AllArrive(t, d, ranges, fetch) && SomeBegins(t, ranges, fetch)
  {
    var ranges := Coalesced(want, gap);
    WantMissing(d, want, gap);
    if AllArrive(t, d, ranges, fetch) {
      AllArriveSame(t, d, want, gap, fetch);
    } else if |ranges| >= 2 && SomeBegins(t, ranges, fetch) {
      SomePairMatters(t, d, ranges, fetch);
    } else {
      BadOtherwise(t, d, ranges, fetch);
      forall a, b | Completes(a, |ranges|) && Completes(b, |ranges|)
        ensures Outcome(t, d, ranges, fetch, a) == Outcome(t, d, ranges, fetch, b)
      {
        SameOutcome(t, d, ranges, fetch, a, b);
      }
    }
  }

  lemma {:induction false} BadOtherwise(t: Tools, d: Disk, ranges: seq<Range>, fetch: (int, int) -> Bytes)
    requires NoneEmpty(ranges) && AllMissing(d, ranges) && !AllArrive(t, d, ranges, fetch)
    requires |ranges| < 2 || !SomeBegins(t, ranges, fetch)
    ensures ranges != [] && AllBad(t, d, ranges, fetch)
  {
    ArriveMeansGood(t, d, ranges, fetch);
    var k: nat :| k < |ranges| && !Good(t, d, ranges, fetch, k);
    forall i: nat | i < |ranges| ensures !Good(t, d, ranges, fetch, i) {
      GoodBegins(t, d, ranges, fetch, i);
      assert |ranges| == 1 ==> i == k;
    }
  }
}
