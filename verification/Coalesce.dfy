/**
 Merging wanted pack entries into HTTP byte ranges (`zerith/objects.py`, `_coalesce_ranges`).
 Range ends are inclusive, as in section 14.1.2 of RFC 9110.
 */
module Coalesce {
  import opened Options

  /** `(offset, length, digest)`; in a range's `objs` the offset is relative to the range. */
  datatype Entry = Entry(off: int, len: nat, digest: string) {
    function Last(): int { off + len - 1 }
  }

  datatype Range = Range(start: int, end: int, objs: seq<Entry>) {
    function Size(): int { end - start + 1 }
  }

  ghost predicate SortedByOffset(want: seq<Entry>) {
    forall i, j | 0 <= i < j < |want| :: want[i].off <= want[j].off
  }

  ghost predicate Positive(want: seq<Entry>) {
    forall i | 0 <= i < |want| :: want[i].len >= 1
  }

  function Open(e: Entry): Range { Range(e.off, e.Last(), [Entry(0, e.len, e.digest)]) }

  function Extend(cur: Range, e: Entry): Range {
    Range(cur.start, if cur.end >= e.Last() then cur.end else e.Last(),
          cur.objs + [Entry(e.off - cur.start, e.len, e.digest)])
  }

  predicate Joins(cur: Range, e: Entry, gap: nat) { e.off - (cur.end + 1) <= gap }

  function CoalesceFrom(cur: Range, rest: seq<Entry>, gap: nat): (r: seq<Range>)
    decreases |rest|
  {
    if rest == [] then [cur]
    else if Joins(cur, rest[0], gap) then CoalesceFrom(Extend(cur, rest[0]), rest[1..], gap)
    else [cur] + CoalesceFrom(Open(rest[0]), rest[1..], gap)
  }

  function Coalesced(want: seq<Entry>, gap: nat): (r: seq<Range>) {
    if want == [] then [] else CoalesceFrom(Open(want[0]), want[1..], gap)
  }

  /** The loop of the source: `cur` is the running range, `ranges` the finished ones. */
  method CoalesceRanges(want: seq<Entry>, gap: nat) returns (ranges: seq<Range>)
    ensures ranges == Coalesced(want, gap)
    ensures SortedByOffset(want) && Positive(want) ==> Flatten(ranges) == want && Separated(ranges, gap)
  {
    ranges := [];
    var cur: Option<Range> := None;
    for i := 0 to |want|
      invariant cur.None? <==> i == 0
      invariant cur.None? ==> ranges == []
      invariant cur.Some? ==> Coalesced(want, gap) == ranges + CoalesceFrom(cur.value, want[i..], gap)
    {
      var e := want[i];
      if cur.None? {
        cur := Some(Open(e));
      } else {
        assert want[i..][1..] == want[i + 1..];
        if Joins(cur.value, e, gap) {
          cur := Some(Extend(cur.value, e));
        } else {
          ranges := ranges + [cur.value];
          cur := Some(Open(e));
        }
      }
    }
    if cur.Some? {
      ranges := ranges + [cur.value];
    }
    if SortedByOffset(want) && Positive(want) {
      CoalescePartitions(want, gap);
    }
  }

  // ------------------------------------------------------------------ shape

  /** The objects of a range at their offsets in the pack. */
  function Absolute(r: Range): (a: seq<Entry>) {
    seq(|r.objs|, i requires 0 <= i < |r.objs| => Entry(r.start + r.objs[i].off, r.objs[i].len, r.objs[i].digest))
  }

  function Flatten(ranges: seq<Range>): (f: seq<Entry>) {
    if ranges == [] then [] else Absolute(ranges[0]) + Flatten(ranges[1..])
  }

  ghost predicate Separated(ranges: seq<Range>, gap: nat) {
    forall i, j | 0 <= i < j < |ranges| :: ranges[j].start - (ranges[i].end + 1) > gap
  }

  ghost function Span(lo: int, n: nat): (s: set<int>)
    ensures forall p :: p in s <==> lo <= p < lo + n
    ensures |s| == n
  {
    if n == 0 then {} else Span(lo, n - 1) + {lo + n - 1}
  }

  /** The set of pack positions some entry wants. */
  ghost function Wanted(want: seq<Entry>): set<int> {
    if want == [] then {} else Span(want[0].off, want[0].len) + Wanted(want[1..])
  }

  /** No run of more than `gap` consecutive unwanted positions lies between `lo` and `hi`. */
  ghost predicate NoBridge(lo: int, hi: int, wanted: set<int>, gap: nat) {
    forall a | lo <= a && a + gap <= hi :: Touches(wanted, a, gap)
  }

  ghost predicate Touches(wanted: set<int>, a: int, gap: nat) {
    exists p :: a <= p <= a + gap && p in wanted
  }

  /** Every object lies inside the range, both ends are wanted bytes, and nothing too long is bridged. */
  ghost predicate RangeOk(r: Range, gap: nat) {
    var w := Wanted(Absolute(r));
    && r.objs != [] && r.objs[0].off == 0
    && (forall i | 0 <= i < |r.objs| :: 0 <= r.objs[i].off && r.start + r.objs[i].Last() <= r.end)
    && r.start in w && r.end in w
    && NoBridge(r.start, r.end, w, gap)
  }

  ghost predicate AllOk(ranges: seq<Range>, gap: nat) {
    forall i | 0 <= i < |ranges| :: RangeOk(ranges[i], gap)
  }

  lemma {:induction false} WantedOf(want: seq<Entry>, e: Entry, p: int)
    requires e in want && e.off <= p <= e.Last()
    ensures p in Wanted(want)
  {
    assert want == [want[0]] + want[1..];
    if e != want[0] {
      WantedOf(want[1..], e, p);
    }
  }

  lemma {:induction false} WantedBy(want: seq<Entry>, p: int) returns (e: Entry)
    requires p in Wanted(want)
    ensures e in want && e.off <= p <= e.Last()
  {
    e := want[0];
    if p !in Span(e.off, e.len) {
      e := WantedBy(want[1..], p);
    }
  }

  lemma {:induction false} WantedGrows(a: seq<Entry>, b: seq<Entry>)
    ensures Wanted(a + b) == Wanted(a) + Wanted(b)
  {
    if a == [] {
      assert a + b == b;
    } else {
      assert (a + b)[1..] == a[1..] + b;
      WantedGrows(a[1..], b);
    }
  }

  lemma {:induction false} InsideRange(r: Range, gap: nat, p: int)
    requires RangeOk(r, gap) && p in Wanted(Absolute(r))
    ensures r.start <= p <= r.end
  {
    var e := WantedBy(Absolute(r), p);
    var i :| 0 <= i < |r.objs| && Absolute(r)[i] == e;
    assert 0 <= r.objs[i].off && r.start + r.objs[i].Last() <= r.end;
  }

  lemma {:induction false} OpenOk(e: Entry, gap: nat)
    requires e.len >= 1
    ensures RangeOk(Open(e), gap) && Absolute(Open(e)) == [e]
  {
    var r := Open(e);
    assert Absolute(r) == [e];
    forall p | r.start <= p <= r.end ensures p in Wanted([e]) { WantedOf([e], e, p); }
    forall a | r.start <= a && a + gap <= r.end ensures Touches(Wanted([e]), a, gap) {
      assert a in Wanted([e]);
    }
  }

  /** Appending one more wanted run, at most `gap` past the end, bridges nothing too long. */
  lemma {:induction false} DenseExtends(start: int, end: int, w: set<int>, e: Entry, gap: nat)
    requires NoBridge(start, end, w, gap) && end in w && e.off <= end + 1 + gap
    ensures NoBridge(start, if end >= e.Last() then end else e.Last(), w + Span(e.off, e.len), gap)
  {
    var w' := w + Span(e.off, e.len);
    forall a | start <= a && a + gap <= (if end >= e.Last() then end else e.Last()) ensures Touches(w', a, gap) {
      if a + gap <= end {
        assert Touches(w, a, gap);
      } else if a <= end {
        assert end in w';
      } else {
        assert (if a >= e.off then a else e.off) in w';
      }
    }
  }

  lemma {:induction false} AbsoluteExtends(cur: Range, e: Entry)
    ensures Absolute(Extend(cur, e)) == Absolute(cur) + [e]
    ensures Wanted(Absolute(Extend(cur, e))) == Wanted(Absolute(cur)) + Span(e.off, e.len)
  {
    assert Absolute(Extend(cur, e)) == Absolute(cur) + [e];
    WantedGrows(Absolute(cur), [e]);
    forall p | p in Span(e.off, e.len) ensures p in Wanted([e]) { WantedOf([e], e, p); }
    assert Wanted([e]) == Span(e.off, e.len);
  }

  lemma {:induction false} ExtendOk(cur: Range, e: Entry, gap: nat)
    requires RangeOk(cur, gap) && e.len >= 1 && cur.start <= e.off && Joins(cur, e, gap)
    ensures RangeOk(Extend(cur, e), gap)
  {
    var r := Extend(cur, e);
    var w := Wanted(Absolute(cur));
    AbsoluteExtends(cur, e);
    DenseExtends(cur.start, cur.end, w, e, gap);
    forall i | 0 <= i < |r.objs| ensures 0 <= r.objs[i].off && r.start + r.objs[i].Last() <= r.end {
      if i < |cur.objs| { assert r.objs[i] == cur.objs[i]; }
    }
  }

  lemma {:induction false} SeparatedCons(cur: Range, tail: seq<Range>, gap: nat)
    requires Separated(tail, gap)
    requires (tail != [] ==> tail[0].start - (cur.end + 1) > gap && tail[0].start <= tail[0].end)
    ensures Separated([cur] + tail, gap)
  {
  }

  lemma {:induction false} CoalesceFromOk(cur: Range, rest: seq<Entry>, gap: nat)
    requires RangeOk(cur, gap) && Positive(rest) && SortedByOffset(rest)
    requires forall i | 0 <= i < |rest| :: cur.start <= rest[i].off
    ensures var r := CoalesceFrom(cur, rest, gap);
            r != [] && r[0].start == cur.start && AllOk(r, gap) && Separated(r, gap)
    decreases |rest|
  {
    if rest != [] {
      var e := rest[0];
      assert Positive(rest[1..]) && SortedByOffset(rest[1..]) && e.len >= 1;
      if Joins(cur, e, gap) {
        ExtendOk(cur, e, gap);
        CoalesceFromOk(Extend(cur, e), rest[1..], gap);
      } else {
        OpenOk(e, gap);
        CoalesceFromOk(Open(e), rest[1..], gap);
        var tail := CoalesceFrom(Open(e), rest[1..], gap);
        InsideRange(tail[0], gap, tail[0].start);
        SeparatedCons(cur, tail, gap);
      }
    }
  }

  lemma {:induction false} FlattenCons(r: Range, tail: seq<Range>)
    ensures Flatten([r] + tail) == Absolute(r) + Flatten(tail)
  {
    assert ([r] + tail)[1..] == tail;
  }

  lemma {:induction false} CoalesceFromFlat(cur: Range, rest: seq<Entry>, gap: nat)
    ensures Flatten(CoalesceFrom(cur, rest, gap)) == Absolute(cur) + rest
    decreases |rest|
  {
    if rest == [] {
      assert Flatten([cur]) == Absolute(cur) + Flatten([]);
    } else {
      var e := rest[0];
      assert rest == [e] + rest[1..];
      if Joins(cur, e, gap) {
        CoalesceFromFlat(Extend(cur, e), rest[1..], gap);
        assert Absolute(Extend(cur, e)) == Absolute(cur) + [e];
        assert Absolute(cur) + [e] + rest[1..] == Absolute(cur) + rest;
      } else {
        CoalesceFromFlat(Open(e), rest[1..], gap);
        assert Absolute(Open(e)) == [e];
        FlattenCons(cur, CoalesceFrom(Open(e), rest[1..], gap));
      }
    }
  }

  /** Coalescing loses and moves nothing, whatever the list: the ranges flatten back to it, in order. */
  lemma {:induction false} CoalesceLossless(want: seq<Entry>, gap: nat)
    ensures Flatten(Coalesced(want, gap)) == want
  {
    if want != [] {
      assert Absolute(Open(want[0])) == [want[0]];
      CoalesceFromFlat(Open(want[0]), want[1..], gap);
    }
  }

  /**
   Every object lies inside its range even where entries overlap or nest, both ends of a range are wanted
   bytes, no long unwanted run is bridged, and neighbours stay more than `gap` apart.
   */
  lemma {:induction false} CoalescePartitions(want: seq<Entry>, gap: nat)
    requires SortedByOffset(want) && Positive(want)
    ensures var r := Coalesced(want, gap);
            && Flatten(r) == want
            && Separated(r, gap)
            && AllOk(r, gap)
            && (want != [] ==> r != [] && r[0].start == want[0].off)
  {
    CoalesceLossless(want, gap);
    if want != [] {
      OpenOk(want[0], gap);
      CoalesceFromOk(Open(want[0]), want[1..], gap);
    }
  }

  // ------------------------------------------------------------- optimality

  datatype Interval = Interval(lo: int, hi: int)

  /** A family of requests covering every wanted byte without bridging a long unwanted run. */
  ghost predicate Serves(family: seq<Interval>, wanted: set<int>, gap: nat) {
    && (forall k | 0 <= k < |family| :: NoBridge(family[k].lo, family[k].hi, wanted, gap))
    && (forall p | p in wanted :: Served(family, p))
  }

  ghost predicate Served(family: seq<Interval>, p: int) {
    exists k | 0 <= k < |family| :: family[k].lo <= p <= family[k].hi
  }

  ghost function Requests(ranges: seq<Range>): (f: seq<Interval>)
    ensures |f| == |ranges|
    ensures forall i | 0 <= i < |f| :: f[i] == Interval(ranges[i].start, ranges[i].end)
  {
    seq(|ranges|, i requires 0 <= i < |ranges| => Interval(ranges[i].start, ranges[i].end))
  }

  lemma {:induction false} WantedFlattenStep(ranges: seq<Range>)
    ensures ranges == [] ==> Wanted(Flatten(ranges)) == {}
    ensures ranges != [] ==> Wanted(Flatten(ranges)) == Wanted(Absolute(ranges[0])) + Wanted(Flatten(ranges[1..]))
  {
    if ranges != [] {
      WantedGrows(Absolute(ranges[0]), Flatten(ranges[1..]));
    }
  }

  /** What the ranges want together is what each wants. */
  lemma {:induction false} WantedFlatten(ranges: seq<Range>, r: Range)
    requires r in ranges
    ensures Wanted(Absolute(r)) <= Wanted(Flatten(ranges))
  {
    var tail := ranges[1..];
    if r != ranges[0] {
      assert r in tail by {
        var k :| 0 <= k < |ranges| && ranges[k] == r;
        assert tail[k - 1] == r;
      }
      WantedFlatten(tail, r);
    }
    WantedFlattenStep(ranges);
  }

  lemma {:induction false} WantedSomewhere(ranges: seq<Range>, p: int) returns (r: Range)
    requires p in Wanted(Flatten(ranges))
    ensures r in ranges && p in Wanted(Absolute(r))
  {
    WantedFlattenStep(ranges);
    r := ranges[0];
    if p !in Wanted(Absolute(r)) {
      r := WantedSomewhere(ranges[1..], p);
    }
  }

  lemma {:induction false} RangeBridgesNothing(want: seq<Entry>, gap: nat, k: nat)
    requires SortedByOffset(want) && Positive(want) && k < |Coalesced(want, gap)|
    ensures NoBridge(Coalesced(want, gap)[k].start, Coalesced(want, gap)[k].end, Wanted(want), gap)
  {
    CoalescePartitions(want, gap);
    var r := Coalesced(want, gap)[k];
    WantedFlatten(Coalesced(want, gap), r);
    forall a | r.start <= a && a + gap <= r.end ensures Touches(Wanted(want), a, gap) {
      assert Touches(Wanted(Absolute(r)), a, gap);
    }
  }

  /** The output is itself such a family. */
  lemma {:induction false} CoalescedServes(want: seq<Entry>, gap: nat)
    requires SortedByOffset(want) && Positive(want)
    ensures Serves(Requests(Coalesced(want, gap)), Wanted(want), gap)
  {
    var r := Coalesced(want, gap);
    var f := Requests(r);
    CoalescePartitions(want, gap);
    forall k | 0 <= k < |f| ensures NoBridge(f[k].lo, f[k].hi, Wanted(want), gap) {
      RangeBridgesNothing(want, gap, k);
    }
    forall p | p in Wanted(want) ensures Served(f, p) {
      var x := WantedSomewhere(r, p);
      var k :| 0 <= k < |r| && r[k] == x;
      InsideRange(x, gap, p);
      assert f[k].lo <= p <= f[k].hi;
    }
  }

  lemma {:induction false} InNoRange(r: seq<Range>, gap: nat, i: nat, k: nat, p: int)
    requires Separated(r, gap) && AllOk(r, gap) && i < |r| && k < |r|
    requires r[i].end < p <= r[i].end + 1 + gap
    ensures !(r[k].start <= p <= r[k].end)
  {
    assert RangeOk(r[i], gap);
  }

  /** What follows an output range, for more than `gap` bytes, is not wanted. */
  lemma {:induction false} GapUnwanted(want: seq<Entry>, gap: nat, i: nat, p: int)
    requires SortedByOffset(want) && Positive(want) && i < |Coalesced(want, gap)|
    requires Coalesced(want, gap)[i].end < p <= Coalesced(want, gap)[i].end + 1 + gap
    ensures p !in Wanted(want)
  {
    var r := Coalesced(want, gap);
    CoalescePartitions(want, gap);
    if p in Wanted(want) {
      var x := WantedSomewhere(r, p);
      var k :| 0 <= k < |r| && r[k] == x;
      InNoRange(r, gap, i, k, p);
      InsideRange(r[k], gap, p);
    }
  }

  /** No request of a serving family can hold the first bytes of two output ranges. */
  lemma {:induction false} NotBoth(want: seq<Entry>, gap: nat, lo: int, hi: int, i: nat, j: nat)
    requires SortedByOffset(want) && Positive(want) && NoBridge(lo, hi, Wanted(want), gap)
    requires i < j < |Coalesced(want, gap)|
    ensures !(lo <= Coalesced(want, gap)[i].start && Coalesced(want, gap)[j].start <= hi)
  {
    var r := Coalesced(want, gap);
    CoalescePartitions(want, gap);
    var a := r[i].end + 1;
    forall p | a <= p <= a + gap ensures p !in Wanted(want) { GapUnwanted(want, gap, i, p); }
    assert !Touches(Wanted(want), a, gap);
  }

  /** For each range, a request of the family that holds its first byte. */
  ghost function PickFor(r: seq<Range>, family: seq<Interval>): (pick: seq<int>)
    requires forall i | 0 <= i < |r| :: Served(family, r[i].start)
    ensures |pick| == |r|
    ensures forall i | 0 <= i < |r| ::
              0 <= pick[i] < |family| && family[pick[i]].lo <= r[i].start <= family[pick[i]].hi
  {
    if r == [] then [] else
      assert Served(family, r[0].start);
      var k :| 0 <= k < |family| && family[k].lo <= r[0].start <= family[k].hi;
      [k] + PickFor(r[1..], family)
  }

  lemma {:induction false} FirstBytesWanted(want: seq<Entry>, gap: nat)
    requires SortedByOffset(want) && Positive(want)
    ensures forall i | 0 <= i < |Coalesced(want, gap)| :: Coalesced(want, gap)[i].start in Wanted(want)
  {
    var r := Coalesced(want, gap);
    CoalescePartitions(want, gap);
    forall i | 0 <= i < |r| ensures r[i].start in Wanted(want) {
      assert RangeOk(r[i], gap);
      WantedFlatten(r, r[i]);
    }
  }

  /**
   Greedy coalescing is optimal: any family of requests that covers the wanted bytes without bridging
   an unwanted run longer than `gap` has at least as many members.
   */
  lemma {:induction false} CoalescingIsOptimal(want: seq<Entry>, gap: nat, family: seq<Interval>)
    requires SortedByOffset(want) && Positive(want)
    requires Serves(family, Wanted(want), gap)
    ensures |Coalesced(want, gap)| <= |family|
  {
    var r := Coalesced(want, gap);
    FirstBytesWanted(want, gap);
    forall i | 0 <= i < |r| ensures Served(family, r[i].start) {
      assert r[i].start in Wanted(want);
    }
    var pick := PickFor(r, family);
    assert NoDup(pick) by {
      forall i, j | 0 <= i < j < |r| ensures pick[i] != pick[j] {
        NotBoth(want, gap, family[pick[i]].lo, family[pick[i]].hi, i, j);
      }
    }
    NoDupCard(pick);
    SubsetCard(Elems(pick), Span(0, |family|));
  }

  // ----------------------------------------------------------------- volume

  function TotalLen(want: seq<Entry>): nat {
    if want == [] then 0 else want[0].len + TotalLen(want[1..])
  }

  function TotalSize(ranges: seq<Range>): int {
    if ranges == [] then 0 else ranges[0].Size() + TotalSize(ranges[1..])
  }

  lemma {:induction false} SizeFromAtMost(cur: Range, rest: seq<Entry>, gap: nat)
    requires cur.start <= cur.end + 1 && SortedByOffset(rest) && forall i | 0 <= i < |rest| :: cur.start <= rest[i].off
    ensures var r := CoalesceFrom(cur, rest, gap);
            && 1 <= |r| <= |rest| + 1
            && TotalSize(r) <= cur.Size() + TotalLen(rest) + gap * (|rest| + 1 - |r|)
    decreases |rest|
  {
    if rest != [] {
      var e := rest[0];
      if Joins(cur, e, gap) {
        var next := Extend(cur, e);
        SizeFromAtMost(next, rest[1..], gap);
        var n := |CoalesceFrom(next, rest[1..], gap)|;
        assert gap * (|rest| - n) + gap == gap * (|rest| + 1 - n);
      } else {
        SizeFromAtMost(Open(e), rest[1..], gap);
        var tail := CoalesceFrom(Open(e), rest[1..], gap);
        assert ([cur] + tail)[1..] == tail;
      }
    }
  }

  lemma {:induction false} WantedFits(ranges: seq<Range>, gap: nat)
    requires AllOk(ranges, gap)
    ensures |Wanted(Flatten(ranges))| <= TotalSize(ranges)
  {
    if ranges == [] {
      assert Wanted(Flatten(ranges)) == {};
    } else {
      var r := ranges[0];
      WantedFits(ranges[1..], gap);
      WantedGrows(Absolute(r), Flatten(ranges[1..]));
      InsideRange(r, gap, r.start);
      var whole := Span(r.start, r.Size());
      forall p | p in Wanted(Absolute(r)) ensures p in whole { InsideRange(r, gap, p); }
      SubsetCard(Wanted(Absolute(r)), whole);
      var a, b := Wanted(Absolute(r)), Wanted(Flatten(ranges[1..]));
      assert |a + b| == |a| + |b - a|;
      SubsetCard(b - a, b);
    }
  }

  lemma {:induction false} FetchedAtLeast(want: seq<Entry>, gap: nat)
    requires SortedByOffset(want) && Positive(want)
    ensures |Wanted(want)| <= TotalSize(Coalesced(want, gap))
  {
    CoalescePartitions(want, gap);
    WantedFits(Coalesced(want, gap), gap);
  }

  lemma {:induction false} FetchedAtMost(want: seq<Entry>, gap: nat)
    requires SortedByOffset(want)
    ensures var r := Coalesced(want, gap);
            |r| <= |want| && TotalSize(r) <= TotalLen(want) + gap * (|want| - |r|)
  {
    if want != [] {
      var rest := want[1..];
      assert |rest| + 1 == |want|;
      SizeFromAtMost(Open(want[0]), rest, gap);
    }
  }

  /**
   Fetched bytes are bounded: above by the wanted lengths plus `gap` for each merge, below by the number
   of distinct wanted bytes.
   */
  lemma {:induction false} FetchedBytesBounded(want: seq<Entry>, gap: nat)
    requires SortedByOffset(want) && Positive(want)
    ensures |Coalesced(want, gap)| <= |want|
    ensures |Wanted(want)| <= TotalSize(Coalesced(want, gap))
    ensures TotalSize(Coalesced(want, gap)) <= TotalLen(want) + gap * (|want| - |Coalesced(want, gap)|)
  {
    FetchedAtLeast(want, gap);
    FetchedAtMost(want, gap);
  }

  lemma {:induction false} SizeFromFits(cur: Range, rest: seq<Entry>, gap: nat, size: nat)
    requires cur.start <= cur.end + 1 <= size && SortedByOffset(rest)
    requires forall e | e in rest :: cur.start <= e.off && e.off + e.len <= size
    ensures TotalSize(CoalesceFrom(cur, rest, gap)) <= size - cur.start
    decreases |rest|
  {
    if rest == [] {
      assert TotalSize([cur]) == cur.Size() + TotalSize([]);
    } else {
      var e := rest[0];
      assert e in rest;
      if Joins(cur, e, gap) {
        SizeFromFits(Extend(cur, e), rest[1..], gap, size);
      } else {
        SizeFromFits(Open(e), rest[1..], gap, size);
        var tail := CoalesceFrom(Open(e), rest[1..], gap);
        assert ([cur] + tail)[1..] == tail;
      }
    }
  }

  /** No more is fetched than the pack holds, when the index stays inside the pack; empty objects or not. */
  lemma {:induction false} NeverMoreThanThePack(want: seq<Entry>, gap: nat, size: nat)
    requires SortedByOffset(want)
    requires forall i | 0 <= i < |want| :: 0 <= want[i].off && want[i].off + want[i].len <= size
    ensures TotalSize(Coalesced(want, gap)) <= size
  {
    if want != [] {
      SizeFromFits(Open(want[0]), want[1..], gap, size);
    }
  }

  // ---------------------------------------------------------- nothing to merge

  /** Each entry starts more than `gap` bytes after the end of each earlier one. */
  ghost predicate Apart(want: seq<Entry>, gap: nat) {
    forall i, j | 0 <= i < j < |want| :: want[j].off - (want[i].off + want[i].len) > gap
  }

  lemma {:induction false} ApartStep(e: Entry, rest: seq<Entry>, gap: nat)
    requires SortedByOffset(rest) && forall i | 0 <= i < |rest| :: e.off <= rest[i].off
    ensures Apart([e] + rest, gap) <==> (rest != [] ==> !Joins(Open(e), rest[0], gap)) && Apart(rest, gap)
  {
    var all := [e] + rest;
    if rest != [] && Joins(Open(e), rest[0], gap) {
      assert all[1].off - (all[0].off + all[0].len) <= gap;
    }
    if Apart(all, gap) {
      forall i, j | 0 <= i < j < |rest| ensures rest[j].off - (rest[i].off + rest[i].len) > gap {
        assert all[j + 1].off - (all[i + 1].off + all[i + 1].len) > gap;
      }
    }
  }

  lemma {:induction false} MergeShortens(cur: Range, rest: seq<Entry>, gap: nat)
    ensures |CoalesceFrom(cur, rest, gap)| <= |rest| + 1
    decreases |rest|
  {
    if rest != [] {
      if Joins(cur, rest[0], gap) {
        MergeShortens(Extend(cur, rest[0]), rest[1..], gap);
      } else {
        MergeShortens(Open(rest[0]), rest[1..], gap);
      }
    }
  }

  lemma {:induction false} OpenStaysApart(e: Entry, rest: seq<Entry>, gap: nat)
    requires SortedByOffset(rest) && forall i | 0 <= i < |rest| :: e.off <= rest[i].off
    ensures |CoalesceFrom(Open(e), rest, gap)| == |rest| + 1 <==> Apart([e] + rest, gap)
    decreases |rest|
  {
    ApartStep(e, rest, gap);
    if rest != [] {
      if Joins(Open(e), rest[0], gap) {
        MergeShortens(Extend(Open(e), rest[0]), rest[1..], gap);
      } else {
        assert [rest[0]] + rest[1..] == rest;
        OpenStaysApart(rest[0], rest[1..], gap);
      }
    }
  }

  /**
   Nothing is merged if and only if each entry starts more than the gap after the end of each earlier one. With a
   gap of 0, that is: no two of them touch or overlap.
   */
  lemma {:induction false} NothingMergedExactly(want: seq<Entry>, gap: nat)
    requires SortedByOffset(want)
    ensures |Coalesced(want, gap)| == |want| <==> Apart(want, gap)
  {
    if want != [] {
      OpenStaysApart(want[0], want[1..], gap);
      assert [want[0]] + want[1..] == want;
    }
  }

  // --------------------------------------------------------- one whole stretch

  lemma {:induction false} EndsWanted(want: seq<Entry>, gap: nat, i: nat)
    requires SortedByOffset(want) && Positive(want) && i < |Coalesced(want, gap)|
    ensures Coalesced(want, gap)[i].start in Wanted(want) && Coalesced(want, gap)[i].end in Wanted(want)
  {
    CoalescePartitions(want, gap);
    assert RangeOk(Coalesced(want, gap)[i], gap);
    WantedFlatten(Coalesced(want, gap), Coalesced(want, gap)[i]);
  }

  lemma {:induction false} NoSecondRange(want: seq<Entry>, gap: nat, size: nat)
    requires SortedByOffset(want) && Positive(want) && Wanted(want) == Span(0, size)
    ensures |Coalesced(want, gap)| <= 1
  {
    var r := Coalesced(want, gap);
    if |r| > 1 {
      CoalescePartitions(want, gap);
      EndsWanted(want, gap, 0);
      EndsWanted(want, gap, 1);
      GapUnwanted(want, gap, 0, r[0].end + 1);
    }
  }

  lemma {:induction false} OneServes(r: seq<Range>, p: int)
    requires |r| <= 1 && Served(Requests(r), p)
    ensures |r| == 1 && r[0].start <= p <= r[0].end
  {
  }

  lemma {:induction false} InTheRange(want: seq<Entry>, gap: nat, size: nat, p: int)
    requires SortedByOffset(want) && Positive(want) && Wanted(want) == Span(0, size) && 0 <= p < size
    ensures var r := Coalesced(want, gap); |r| == 1 && r[0].start <= p <= r[0].end
  {
    NoSecondRange(want, gap, size);
    CoalescedServes(want, gap);
    OneServes(Coalesced(want, gap), p);
  }

  /** A want list whose bytes are all of a pack is one request for the pack, whatever the gap. */
  lemma {:induction false} AllBytesIsOneRange(want: seq<Entry>, gap: nat, size: nat)
    requires SortedByOffset(want) && Positive(want) && size > 0 && Wanted(want) == Span(0, size)
    ensures var r := Coalesced(want, gap); |r| == 1 && r[0].start == 0 && r[0].end == size - 1
  {
    InTheRange(want, gap, size, 0);
    InTheRange(want, gap, size, size - 1);
    EndsWanted(want, gap, 0);
  }

  ghost predicate Contiguous(want: seq<Entry>) {
    forall i, j | 0 <= i && j == i + 1 && j < |want| :: want[j].off == want[i].off + want[i].len
  }

  lemma {:induction false} ContiguousFrom(cur: Range, rest: seq<Entry>, gap: nat)
    requires Contiguous(rest) && cur.start <= cur.end + 1 && (rest != [] ==> rest[0].off == cur.end + 1)
    ensures var r := CoalesceFrom(cur, rest, gap);
            |r| == 1 && r[0].start == cur.start && r[0].end == (if rest == [] then cur.end else rest[|rest| - 1].Last())
    decreases |rest|
  {
    if rest != [] {
      var next := Extend(cur, rest[0]);
      var tail := rest[1..];
      assert tail != [] ==> tail[0] == rest[1];
      ContiguousFrom(next, rest[1..], gap);
    }
  }

  /** Entries that follow one another without a hole are one request, empty ones among them or not. */
  lemma {:induction false} WholePackIsOneRange(want: seq<Entry>, gap: nat)
    requires Contiguous(want) && want != []
    ensures var r := Coalesced(want, gap);
            |r| == 1 && r[0].start == want[0].off && r[0].end == want[|want| - 1].Last()
  {
    var tail := want[1..];
    assert tail != [] ==> tail[0] == want[1];
    ContiguousFrom(Open(want[0]), want[1..], gap);
  }
}
