/**
 The object pack: the producer's text pipeline (`scripts/ci/pack-objects.sh`) and the gate that checks its
 output against the object store (`scripts/ci/verify-pack.py`).
 */
module Pack {
  import opened Options
  import opened Orders
  import opened IndexText

  type Bytes = seq<bv8>

  // ------------------------------------------------- reference definitions

  function Content(store: map<string, Bytes>, d: string): (b: Bytes) {
    if d in store then store[d] else []
  }

  /** The contents of the named objects, one after the other. */
  function Concat(ds: seq<string>, store: map<string, Bytes>): (b: Bytes) {
    if ds == [] then [] else Content(store, ds[0]) + Concat(ds[1..], store)
  }

  /** The index of that concatenation when it starts at `at`: offsets are prefix sums. */
  function Layout(ds: seq<string>, store: map<string, Bytes>, at: nat): (index: seq<IndexEntry>) {
    if ds == [] then []
    else [IndexEntry(ds[0], at, |Content(store, ds[0])|)] + Layout(ds[1..], store, at + |Content(store, ds[0])|)
  }

  function DigestsOf(index: seq<IndexEntry>): (ds: seq<string>) {
    seq(|index|, i requires 0 <= i < |index| => index[i].digest)
  }

  ghost predicate AllIn(ds: seq<string>, store: map<string, Bytes>) { forall d | d in ds :: d in store }

  lemma {:induction false} SliceShift(a: Bytes, b: Bytes, lo: nat, hi: nat)
    requires lo <= hi <= |b|
    ensures (a + b)[|a| + lo..|a| + hi] == b[lo..hi]
  {
  }

  /** Every indexed object lies at its offset in the pack. */
  lemma {:induction false} LayoutLocates(ds: seq<string>, store: map<string, Bytes>, at: nat, e: IndexEntry)
    requires e in Layout(ds, store, at)
    ensures e.digest in ds && e.len == |Content(store, e.digest)|
    ensures at <= e.off && e.off + e.len <= at + |Concat(ds, store)|
    ensures Concat(ds, store)[e.off - at..e.off - at + e.len] == Content(store, e.digest)
  {
    var head := Content(store, ds[0]);
    var rest := Concat(ds[1..], store);
    if e == IndexEntry(ds[0], at, |head|) {
      assert (head + rest)[..|head|] == head;
    } else {
      LayoutLocates(ds[1..], store, at + |head|, e);
      SliceShift(head, rest, e.off - at - |head|, e.off - at - |head| + e.len);
    }
  }

  /** Every byte of the pack belongs to an indexed object. */
  lemma {:induction false} LayoutCovers(ds: seq<string>, store: map<string, Bytes>, at: nat, p: nat)
    returns (e: IndexEntry)
    requires at <= p < at + |Concat(ds, store)|
    ensures e in Layout(ds, store, at) && e.off <= p < e.off + e.len
  {
    var n := |Content(store, ds[0])|;
    if p < at + n {
      e := IndexEntry(ds[0], at, n);
    } else {
      e := LayoutCovers(ds[1..], store, at + n, p);
    }
  }

  lemma {:induction false} LayoutDigests(ds: seq<string>, store: map<string, Bytes>, at: nat)
    ensures DigestsOf(Layout(ds, store, at)) == ds
  {
    if ds != [] {
      var n := |Content(store, ds[0])|;
      LayoutDigests(ds[1..], store, at + n);
      var tail := Layout(ds[1..], store, at + n);
      assert ([IndexEntry(ds[0], at, n)] + tail)[1..] == tail;
      assert ds == [ds[0]] + ds[1..];
    }
  }

  // --------------------------------------------------------------- the gate

  /** `pack.seek(off); pack.read(length)`: short at the end of the file. */
  function Read(pack: Bytes, off: nat, len: nat): (b: Bytes)
    ensures |b| <= len
  {
    if off >= |pack| then [] else pack[off..if off + len <= |pack| then off + len else |pack|]
  }

  predicate EntryOk(e: IndexEntry, pack: Bytes, store: map<string, Bytes>, expected: nat) {
    e.off == expected && e.digest in store && Read(pack, e.off, e.len) == store[e.digest]
  }

  predicate Passes(index: seq<IndexEntry>, pack: Bytes, store: map<string, Bytes>, expected: nat) {
    if index == [] then expected == |pack|
    else EntryOk(index[0], pack, store, expected) && Passes(index[1..], pack, store, index[0].off + index[0].len)
  }

  /** The pack and index rebuild the store: contiguous, byte-identical, nothing left over. */
  ghost predicate Rebuilds(index: seq<IndexEntry>, pack: Bytes, store: map<string, Bytes>) {
    var ds := DigestsOf(index);
    AllIn(ds, store) && index == Layout(ds, store, 0) && pack == Concat(ds, store)
  }

  lemma {:induction false} PassesStays(index: seq<IndexEntry>, pack: Bytes, store: map<string, Bytes>, at: nat)
    requires Passes(index, pack, store, at)
    ensures at <= |pack|
  {
    if index != [] { PassesStays(index[1..], pack, store, at + index[0].len); }
  }

  ghost predicate RebuildsFrom(index: seq<IndexEntry>, pack: Bytes, store: map<string, Bytes>, at: nat)
    requires at <= |pack|
  {
    var ds := DigestsOf(index);
    AllIn(ds, store) && index == Layout(ds, store, at) && pack[at..] == Concat(ds, store)
  }

  /** One entry in front: its own slice must be its content, and the rest must rebuild from its end. */
  lemma {:induction false} RebuildsStep(index: seq<IndexEntry>, pack: Bytes, store: map<string, Bytes>, at: nat)
    requires at <= |pack| && index != []
    ensures var e := index[0];
            RebuildsFrom(index, pack, store, at) <==>
              && e.off == at && e.digest in store && at + e.len <= |pack|
              && pack[at..at + e.len] == store[e.digest]
              && RebuildsFrom(index[1..], pack, store, at + e.len)
  {
    var e, tail := index[0], index[1..];
    var ds := DigestsOf(index);
    var n := |Content(store, e.digest)|;
    assert ds[0] == e.digest && ds[1..] == DigestsOf(tail);
    assert AllIn(ds, store) <==> e.digest in store && AllIn(DigestsOf(tail), store) by {
      assert ds == [e.digest] + DigestsOf(tail);
    }
    var rest := Layout(ds[1..], store, at + n);
    assert index == Layout(ds, store, at) <==> e == IndexEntry(e.digest, at, n) && tail == rest by {
      assert index == [e] + tail && Layout(ds, store, at) == [IndexEntry(e.digest, at, n)] + rest;
      assert ([IndexEntry(e.digest, at, n)] + rest)[1..] == rest;
    }
    var c := Concat(ds[1..], store);
    assert pack[at..] == Content(store, e.digest) + c <==>
           at + n <= |pack| && pack[at..at + n] == Content(store, e.digest) && pack[at + n..] == c by {
      SplitPack(pack, at, Content(store, e.digest), c);
    }
  }

  lemma {:induction false} SplitPack(pack: Bytes, at: nat, a: Bytes, c: Bytes)
    requires at <= |pack|
    ensures pack[at..] == a + c <==> at + |a| <= |pack| && pack[at..at + |a|] == a && pack[at + |a|..] == c
  {
    if at + |a| <= |pack| {
      assert pack[at..] == pack[at..at + |a|] + pack[at + |a|..];
    }
    if pack[at..] == a + c {
      assert |pack[at..]| == |a| + |c|;
      assert pack[at..at + |a|] == (a + c)[..|a|];
      assert pack[at + |a|..] == (a + c)[|a|..];
    }
  }

  /** No read of an accepted run was short: the final size check rules it out for every earlier entry. */
  lemma {:induction false} PassesIffRebuilds(index: seq<IndexEntry>, pack: Bytes, store: map<string, Bytes>, at: nat)
    requires at <= |pack|
    ensures Passes(index, pack, store, at) <==> RebuildsFrom(index, pack, store, at)
  {
    if index == [] {
      assert |pack[at..]| == |pack| - at;
    } else {
      var e := index[0];
      RebuildsStep(index, pack, store, at);
      if Passes(index, pack, store, at) {
        PassesStays(index[1..], pack, store, at + e.len);
      }
      if at + e.len <= |pack| {
        PassesIffRebuilds(index[1..], pack, store, at + e.len);
      }
    }
  }

  /** `verify`: count the errors of one pass, then check the size and the count. */
  method Verify(index: seq<IndexEntry>, pack: Bytes, store: map<string, Bytes>) returns (code: nat)
    ensures code == 0 || code == 1
    ensures code == 0 <==> Rebuilds(index, pack, store) && |index| == |store|
    ensures NoDup(DigestsOf(index)) ==>
              (code == 0 <==> Rebuilds(index, pack, store) && Elems(DigestsOf(index)) == store.Keys)
    ensures code == 0 ==> (Elems(DigestsOf(index)) == store.Keys <==> NoDup(DigestsOf(index)))
  {
    var errors: nat := 0;
    var expected: nat := 0;
    assert index[0..] == index;
    for i := 0 to |index|
      invariant Passes(index, pack, store, 0) <==> errors == 0 && Passes(index[i..], pack, store, expected)
    {
      var e := index[i];
      assert index[i..][1..] == index[i + 1..];
      if e.off != expected {
        errors := errors + 1;
      }
      expected := e.off + e.len;
      if e.digest !in store {
        errors := errors + 1;
      } else if Read(pack, e.off, e.len) != store[e.digest] {
        errors := errors + 1;
      }
    }
    if expected != |pack| {
      errors := errors + 1;
    }
    PassesIffRebuilds(index, pack, store, 0);
    assert pack[0..] == pack;
    if |index| != |store| {
      errors := errors + 1;
    }
    code := if errors > 0 then 1 else 0;
    if AllIn(DigestsOf(index), store) {
      if |index| == |store| { CoverageExactly(index, store); }
      if NoDup(DigestsOf(index)) { AcceptedCoversStore(index, store); }
    }
  }

  /**
   With distinct index digests the gate's count check means full coverage: an index as long as the store,
   all of whose entries are in the store, names every object. So it then accepts exactly the packs that
   are the concatenation of the whole store in index order.
   */
  lemma {:induction false} AcceptedCoversStore(index: seq<IndexEntry>, store: map<string, Bytes>)
    requires NoDup(DigestsOf(index)) && AllIn(DigestsOf(index), store)
    ensures |index| == |store| <==> Elems(DigestsOf(index)) == store.Keys
  {
    var ds := DigestsOf(index);
    NoDupCard(ds);
    SubsetCard(Elems(ds), store.Keys);
    assert |store.Keys| == |store|;
  }

  /** Every index the gate accepts names the whole store if and only if it repeats no digest. */
  lemma {:induction false} CoverageExactly(index: seq<IndexEntry>, store: map<string, Bytes>)
    requires AllIn(DigestsOf(index), store) && |index| == |store|
    ensures Elems(DigestsOf(index)) == store.Keys <==> NoDup(DigestsOf(index))
  {
    var ds := DigestsOf(index);
    ElemsCard(ds);
    SubsetCard(Elems(ds), store.Keys);
    assert |store.Keys| == |store|;
  }

  /** And there is such an index: with a repeated entry, a pack that misses an object is accepted. */
  lemma {:induction false} RepeatedDigestFoolsCount(a: string, b: string, x: Bytes, y: Bytes)
    requires a != b
    ensures var store := map[a := x, b := y];
            var index := [IndexEntry(a, 0, |x|), IndexEntry(a, |x|, |x|)];
            && Rebuilds(index, x + x, store) && |index| == |store|
            && b !in DigestsOf(index)
  {
    var store := map[a := x, b := y];
    var index := [IndexEntry(a, 0, |x|), IndexEntry(a, |x|, |x|)];
    var ds := DigestsOf(index);
    assert ds == [a, a];
    assert ds[1..] == [a] && [a][1..] == [];
    assert Concat([a], store) == x + Concat([], store) == x;
    assert Layout([a], store, |x|) == [IndexEntry(a, |x|, |x|)] + Layout([], store, |x| + |x|);
    assert Layout(ds, store, 0) == [IndexEntry(a, 0, |x|)] + Layout([a], store, |x|) == index;
    assert store.Keys == {a, b};
    assert |store.Keys| == 2;
  }

  // ----------------------------------------------------------- the producer

  /** A 64-digit lower-case hex name. */
  predicate IsDigest(d: string) {
    |d| == 64 && forall c | c in d :: '0' <= c <= '9' || 'a' <= c <= 'f'
  }

  ghost predicate HexStore(store: map<string, Bytes>) { forall d | d in store :: IsDigest(d) }

  /** `%P\t%s`: the path under `out/objects` and the size. */
  function Path(d: string): (p: string)
    requires |d| >= 2
  {
    d[..2] + "/" + d[2..]
  }

  function SizeColumn(n: nat): (s: string) { "\t" + Dec(n) }

  function FindLine(d: string, store: map<string, Bytes>): (line: string)
    requires IsDigest(d) && d in store
  {
    Path(d) + SizeColumn(|store[d]|)
  }

  /** The lines `find` prints when it meets the objects in the order `seen`. */
  function FindLines(seen: seq<string>, store: map<string, Bytes>): (lines: seq<string>)
    requires forall d | d in seen :: d in store && IsDigest(d)
    ensures |lines| == |seen|
    ensures forall i | 0 <= i < |seen| :: lines[i] == FindLine(seen[i], store)
  {
    if seen == [] then [] else [FindLine(seen[0], store)] + FindLines(seen[1..], store)
  }

  /** `sub("/", "", d)`. */
  function DropSlash(path: string): (d: string) {
    if path == [] then [] else if path[0] == '/' then path[1..] else [path[0]] + DropSlash(path[1..])
  }

  predicate IsTab(c: char) { c == '\t' }

  /** `$1` and `$2` of a line split at tabs. */
  function Column(line: string, k: nat): (f: string) {
    var f := Tokens(line, IsTab);
    if k < |f| then f[k] else ""
  }

  /** awk's number for a field: its decimal value, or 0. */
  function Number(f: string): (n: nat) {
    match ParseNat(f) case None => 0 case Some(n) => n
  }

  function AwkLine(line: string, off: nat): (text: string) {
    DropSlash(Column(line, 0)) + " " + Dec(off) + " " + Column(line, 1) + "\n"
  }

  function AwkText(lines: seq<string>, off: nat): (text: string) {
    if lines == [] then []
    else AwkLine(lines[0], off) + AwkText(lines[1..], off + Number(Column(lines[0], 1)))
  }

  /** The awk pass: print each line with the running offset, then advance it by the size. */
  method AwkIndex(lines: seq<string>) returns (text: string)
    ensures text == AwkText(lines, 0)
  {
    text := "";
    var off: nat := 0;
    assert lines[0..] == lines;
    for i := 0 to |lines|
      invariant AwkText(lines, 0) == text + AwkText(lines[i..], off)
    {
      assert lines[i..][1..] == lines[i + 1..];
      assert text + (AwkLine(lines[i], off) + AwkText(lines[i + 1..], off + Number(Column(lines[i], 1))))
          == text + AwkLine(lines[i], off) + AwkText(lines[i + 1..], off + Number(Column(lines[i], 1)));
      text := text + AwkLine(lines[i], off);
      off := off + Number(Column(lines[i], 1));
    }
    assert text + [] == text;
  }

  /** `cut -f1 | xargs cat`: the contents of the listed paths, in list order. */
  function CatPaths(lines: seq<string>, store: map<string, Bytes>): (pack: Bytes) {
    if lines == [] then []
    else
      var d := DropSlash(Column(lines[0], 0));
      (if d in store then store[d] else []) + CatPaths(lines[1..], store)
  }

  /** The two files the script leaves, for the order `seen` in which `find` met the objects. */
  function PackFile(seen: seq<string>, store: map<string, Bytes>): (pack: Bytes)
    requires forall d | d in seen :: d in store && IsDigest(d)
  {
    CatPaths(Sort(FindLines(seen, store), StrLe), store)
  }

  function IndexFile(seen: seq<string>, store: map<string, Bytes>): (text: string)
    requires forall d | d in seen :: d in store && IsDigest(d)
  {
    AwkText(Sort(FindLines(seen, store), StrLe), 0)
  }

  // ------------------------------------------------ what the producer makes

  lemma {:induction false} HexIsWord(d: string)
    requires IsDigest(d)
    ensures IsWord(d) && '/' !in d && '\t' !in d
  {
  }

  lemma {:induction false} DropSlashAt(a: string, b: string)
    requires '/' !in a
    ensures DropSlash(a + "/" + b) == a + b
  {
    var s := a + "/" + b;
    if a == [] {
      assert s[1..] == b;
    } else {
      assert s[1..] == a[1..] + "/" + b;
      DropSlashAt(a[1..], b);
    }
  }

  lemma {:induction false} TabbedColumns(p: string, n: string)
    requires p != [] && n != [] && '\t' !in p && '\t' !in n
    ensures Tokens(p + ("\t" + n), IsTab) == [p, n]
  {
    assert p + ("\t" + n) == p + ['\t'] + n;
    TokensSplit([], p, '\t', n, IsTab);
    TokensWord([], p, IsTab);
    TokensWord([], n, IsTab);
    assert [] + p == p && [] + n == n;
  }

  lemma {:induction false} LineColumns(d: string, store: map<string, Bytes>)
    requires d in store && IsDigest(d)
    ensures DropSlash(Column(FindLine(d, store), 0)) == d
    ensures Column(FindLine(d, store), 1) == Dec(|store[d]|)
    ensures Number(Column(FindLine(d, store), 1)) == |store[d]|
  {
    DecRoundTrips(|store[d]|);
    HexIsWord(d);
    TabbedColumns(Path(d), Dec(|store[d]|));
    DropSlashAt(d[..2], d[2..]);
    assert d[..2] + d[2..] == d;
  }

  lemma {:induction false} StrLePrefix(p: string, q: string, x: string, y: string)
    requires |p| == |q|
    ensures StrLe(p + x, q + y) <==> if p == q then StrLe(x, y) else StrLe(p, q)
  {
    if p == [] {
      assert p + x == x && q + y == y;
    } else {
      assert (p + x)[1..] == p[1..] + x && (q + y)[1..] == q[1..] + y;
      assert p == [p[0]] + p[1..] && q == [q[0]] + q[1..];
      StrLePrefix(p[1..], q[1..], x, y);
    }
  }

  lemma {:induction false} PathOrder(d: string, e: string)
    requires IsDigest(d) && IsDigest(e)
    ensures StrLe(Path(d), Path(e)) <==> StrLe(d, e)
    ensures Path(d) == Path(e) <==> d == e
  {
    assert d[..2] + d[2..] == d && e[..2] + e[2..] == e;
    var u, v := "/" + d[2..], "/" + e[2..];
    assert Path(d) == d[..2] + u && Path(e) == e[..2] + v;
    StrLePrefix(d[..2], e[..2], d[2..], e[2..]);
    StrLePrefix(d[..2], e[..2], u, v);
    StrLePrefix("/", "/", d[2..], e[2..]);
    HexIsWord(d);
    HexIsWord(e);
    DropSlashAt(d[..2], d[2..]);
    DropSlashAt(e[..2], e[2..]);
  }

  lemma {:induction false} SuffixKeepsOrder(p: string, q: string, x: string, y: string, d: string, e: string)
    requires |p| == |q| && (StrLe(p, q) <==> StrLe(d, e)) && (p == q <==> d == e) && (d == e ==> x == y)
    ensures StrLe(p + x, q + y) <==> StrLe(d, e)
  {
    StrLePrefix(p, q, x, y);
    StrTotal(d, d);
    StrTotal(x, x);
  }

  /** Sorting the listed lines is sorting by digest: the slash sits at a fixed place. */
  lemma {:induction false} LineOrderIsDigestOrder(d: string, e: string, store: map<string, Bytes>)
    requires d in store && e in store && IsDigest(d) && IsDigest(e)
    ensures StrLe(FindLine(d, store), FindLine(e, store)) <==> StrLe(d, e)
  {
    PathOrder(d, e);
    SuffixKeepsOrder(Path(d), Path(e), SizeColumn(|store[d]|), SizeColumn(|store[e]|), d, e);
  }

  ghost predicate AllStored(ds: seq<string>, store: map<string, Bytes>) {
    forall d | d in ds :: d in store && IsDigest(d)
  }

  lemma {:induction false} InsertCommutes(d: string, ds: seq<string>, store: map<string, Bytes>)
    requires AllStored([d] + ds, store)
    ensures AllStored(Insert(d, ds, StrLe), store)
    ensures FindLines(Insert(d, ds, StrLe), store) == Insert(FindLine(d, store), FindLines(ds, store), StrLe)
  {
    assert d in [d] + ds && forall e | e in ds :: e in [d] + ds;
    if ds != [] {
      LineOrderIsDigestOrder(d, ds[0], store);
      assert FindLines(ds, store)[1..] == FindLines(ds[1..], store);
      if StrLe(d, ds[0]) {
        assert ([d] + ds)[1..] == ds;
      } else {
        assert AllStored([d] + ds[1..], store);
        InsertCommutes(d, ds[1..], store);
        var r := Insert(d, ds[1..], StrLe);
        assert ([ds[0]] + r)[1..] == r;
      }
    }
  }

  /** Sorting the lines is listing the sorted digests. */
  lemma {:induction false} SortedLines(seen: seq<string>, store: map<string, Bytes>)
    requires AllStored(seen, store)
    ensures AllStored(Sort(seen, StrLe), store)
    ensures Sort(FindLines(seen, store), StrLe) == FindLines(Sort(seen, StrLe), store)
  {
    if seen != [] {
      SortedLines(seen[1..], store);
      assert FindLines(seen, store)[1..] == FindLines(seen[1..], store);
      InsertCommutes(seen[0], Sort(seen[1..], StrLe), store);
    }
  }

  /** The output depends on the object set alone, not on the order in which `find` met it. */
  lemma {:induction false} ProducerIsCanonical(a: seq<string>, b: seq<string>, store: map<string, Bytes>)
    requires AllStored(a, store) && AllStored(b, store)
    requires multiset(a) == multiset(b)
    ensures PackFile(a, store) == PackFile(b, store)
    ensures IndexFile(a, store) == IndexFile(b, store)
  {
    SortedLines(a, store);
    SortedLines(b, store);
    StrIsTotal();
    SortCanonical(a, b, StrLe);
  }

  lemma {:induction false} LinesGivePack(ds: seq<string>, store: map<string, Bytes>)
    requires AllStored(ds, store)
    ensures CatPaths(FindLines(ds, store), store) == Concat(ds, store)
  {
    if ds != [] {
      LineColumns(ds[0], store);
      LinesGivePack(ds[1..], store);
      var lines := FindLines(ds, store);
      assert lines[0] == FindLine(ds[0], store) && lines[1..] == FindLines(ds[1..], store);
    }
  }

  lemma {:induction false} LinesGiveIndex(ds: seq<string>, store: map<string, Bytes>, at: nat)
    requires AllStored(ds, store)
    ensures AwkText(FindLines(ds, store), at) == Print(Layout(ds, store, at))
  {
    if ds != [] {
      var d := ds[0];
      var n := |store[d]|;
      LineColumns(d, store);
      LinesGiveIndex(ds[1..], store, at + n);
      var lines := FindLines(ds, store);
      assert lines[0] == FindLine(d, store) && lines[1..] == FindLines(ds[1..], store);
      var index, tail := Layout(ds, store, at), Layout(ds[1..], store, at + n);
      assert index[0] == IndexEntry(d, at, n) && index[1..] == tail;
      assert Print(index) == PrintLine(index[0]) + "\n" + Print(tail);
    }
  }

  lemma {:induction false} LinesGiveLayout(ds: seq<string>, store: map<string, Bytes>, at: nat)
    requires AllStored(ds, store)
    ensures AwkText(FindLines(ds, store), at) == Print(Layout(ds, store, at))
    ensures CatPaths(FindLines(ds, store), store) == Concat(ds, store)
  {
    LinesGiveIndex(ds, store, at);
    LinesGivePack(ds, store);
  }

  /**
   What the producer makes, in every enumeration order: both parsers read its index as the prefix-sum
   layout of the sorted digests, its pack is their concatenation, and the gate accepts the pair.
   */
  lemma {:induction false} ProducerPasses(seen: seq<string>, store: map<string, Bytes>)
    requires HexStore(store) && NoDup(seen) && Elems(seen) == store.Keys
    ensures forall d | d in seen :: d in store && IsDigest(d)
    ensures var ds := Sort(seen, StrLe);
            && AllIn(ds, store)
            && Sorted(ds, StrLe) && NoDup(ds) && Elems(ds) == store.Keys
            && PackFile(seen, store) == Concat(ds, store)
            && HostEntries(IndexFile(seen, store)) == Some(Layout(ds, store, 0))
            && GateEntries(IndexFile(seen, store)) == Some(Layout(ds, store, 0))
            && Rebuilds(Layout(ds, store, 0), PackFile(seen, store), store)
            && |Layout(ds, store, 0)| == |store|
  {
    forall d | d in seen ensures d in store && IsDigest(d) {
      assert d in Elems(seen);
    }
    var ds := Sort(seen, StrLe);
    SortedLines(seen, store);
    StrIsTotal();
    SortSorts(seen, StrLe);
    NoDupPermuted(seen, ds);
    LinesGiveLayout(ds, store, 0);
    LayoutDigests(ds, store, 0);
    var index := Layout(ds, store, 0);
    forall e | e in index ensures IsWord(e.digest) {
      LayoutLocates(ds, store, 0, e);
      HexIsWord(e.digest);
    }
    PrintedIndexRoundTrips(index);
    assert Elems(ds) == store.Keys;
    AcceptedCoversStore(index, store);
  }

  lemma {:induction false} NoDupPermuted(a: seq<string>, b: seq<string>)
    requires NoDup(a) && multiset(a) == multiset(b)
    ensures NoDup(b) && Elems(a) == Elems(b)
  {
    forall i, j | 0 <= i < j < |b| ensures b[i] != b[j] {
      if b[i] == b[j] {
        assert b == b[..i] + [b[i]] + b[i + 1..j] + [b[j]] + b[j + 1..];
        assert multiset(b)[b[i]] >= 2;
        OnceOnly(a, b[i]);
      }
    }
    forall x ensures x in a <==> x in b {
      assert x in multiset(a) <==> x in multiset(b);
    }
  }

  lemma {:induction false} OnceOnly(a: seq<string>, x: string)
    requires NoDup(a)
    ensures multiset(a)[x] <= 1
  {
    if a != [] {
      OnceOnly(a[1..], x);
      assert a == [a[0]] + a[1..];
      assert x in a[1..] ==> a[0] != x;
    }
  }
}
