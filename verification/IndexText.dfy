/**
 The pack index as text: the lines awk prints (`scripts/ci/pack-objects.sh`), the host's parser
 (`zerith/objects.py`, `_parse_index`) and the gate's parser (`scripts/ci/verify-pack.py`, `_load_index`).
 */
module IndexText {
  import opened Options

  datatype IndexEntry = IndexEntry(digest: string, off: nat, len: nat)

  // ---------------------------------------------------------------- numbers

  function Dec(n: nat): (s: string) {
    (if n < 10 then [] else Dec(n / 10)) + ['0' + (n % 10) as char]
  }

  predicate IsDigit(c: char) { '0' <= c <= '9' }

  function Digits(s: string): (v: Option<nat>) {
    if s == [] then Some(0)
    else
      var c := s[|s| - 1];
      match Digits(s[..|s| - 1])
      case None => None
      case Some(v) => if IsDigit(c) then Some(10 * v + (c - '0') as nat) else None
  }

  /** `int(text)` on unsigned decimal text. */
  function ParseNat(s: string): (v: Option<nat>) {
    if s == [] then None else Digits(s)
  }

  ghost predicate IsWord(s: string) {
    s != [] && forall c | c in s :: !IsSpace(c)
  }

  lemma {:induction false} DigitsAppend(high: string, v: nat, d: nat)
    requires Digits(high) == Some(v) && d < 10
    ensures Digits(high + ['0' + d as char]) == Some(10 * v + d)
  {
    var c := '0' + d as char;
    assert (high + [c])[..|high + [c]| - 1] == high;
  }

  lemma {:induction false} WordAppend(high: string, d: nat)
    requires d < 10 && (high == [] || IsWord(high))
    ensures IsWord(high + ['0' + d as char])
  {
    forall x | x in high + ['0' + d as char] ensures !IsSpace(x) {
      assert x in high || (x == '0' + d as char && IsDigit(x));
    }
  }

  lemma {:induction false} DecRoundTrips(n: nat)
    ensures ParseNat(Dec(n)) == Some(n) && IsWord(Dec(n))
  {
    if n >= 10 {
      DecRoundTrips(n / 10);
    }
    DigitsAppend(if n < 10 then [] else Dec(n / 10), n / 10, n % 10);
    WordAppend(if n < 10 then [] else Dec(n / 10), n % 10);
  }

  // ------------------------------------------------------------------ words

  /** White space for Python's `str.split`. */
  predicate IsSpace(c: char) {
    c == ' ' || c == '\t' || c == '\U{1F}' || c == '\U{A0}' || c == '\U{1680}' || '\U{2000}' <= c <= '\U{200A}'
    || c == '\U{202F}' || c == '\U{205F}' || c == '\U{3000}' || IsLineBreak(c)
  }

  /** Where `str.splitlines` breaks. */
  predicate IsLineBreak(c: char) {
    IsNewline(c) || c == '\U{0B}' || c == '\U{0C}' || c == '\U{1C}' || c == '\U{1D}' || c == '\U{1E}'
    || c == '\U{85}' || c == '\U{2028}' || c == '\U{2029}'
  }

  /** Where iterating over a text file breaks. */
  predicate IsNewline(c: char) { c == '\n' || c == '\r' }

  /** The maximal runs of characters that are not separators, so blank pieces never appear. */
  function TokensFrom(cur: string, s: string, sep: char -> bool): (t: seq<string>)
    decreases |s|
  {
    if s == [] then (if cur == [] then [] else [cur])
    else if sep(s[0]) then (if cur == [] then [] else [cur]) + TokensFrom([], s[1..], sep)
    else TokensFrom(cur + [s[0]], s[1..], sep)
  }

  function Tokens(s: string, sep: char -> bool): (t: seq<string>) { TokensFrom([], s, sep) }

  lemma {:induction false} TokensSplit(cur: string, a: string, c: char, b: string, sep: char -> bool)
    requires sep(c)
    ensures TokensFrom(cur, a + [c] + b, sep) == TokensFrom(cur, a, sep) + Tokens(b, sep)
    decreases |a|
  {
    var s := a + [c] + b;
    if a == [] {
      assert s[1..] == b;
    } else {
      assert s[1..] == a[1..] + [c] + b;
      TokensSplit(if sep(a[0]) then [] else cur + [a[0]], a[1..], c, b, sep);
    }
  }

  lemma {:induction false} TokensWord(cur: string, w: string, sep: char -> bool)
    requires forall c | c in w :: !sep(c)
    ensures TokensFrom(cur, w, sep) == if cur + w == [] then [] else [cur + w]
    decreases |w|
  {
    if w == [] {
      assert cur + w == cur;
    } else {
      assert cur + [w[0]] + w[1..] == cur + w;
      TokensWord(cur + [w[0]], w[1..], sep);
    }
  }

  lemma {:induction false} TokensAgree(cur: string, s: string, f: char -> bool, g: char -> bool)
    requires forall c | c in s :: f(c) == g(c)
    ensures TokensFrom(cur, s, f) == TokensFrom(cur, s, g)
    decreases |s|
  {
    if s != [] {
      TokensAgree(if f(s[0]) then [] else cur + [s[0]], s[1..], f, g);
    }
  }

  // --------------------------------------------------------------- printing

  function PrintLine(e: IndexEntry): (s: string) {
    e.digest + " " + Dec(e.off) + " " + Dec(e.len)
  }

  function Print(index: seq<IndexEntry>): (s: string) {
    if index == [] then [] else PrintLine(index[0]) + "\n" + Print(index[1..])
  }

  // ---------------------------------------------------------------- parsing

  /** `digest, offset, length = line.split()` and the two `int` calls; `None` is the exception. */
  function ParseLine(line: string): (e: Option<IndexEntry>) {
    var f := Tokens(line, IsSpace);
    if |f| != 3 then None
    else match (ParseNat(f[1]), ParseNat(f[2]))
      case (Some(off), Some(len)) => Some(IndexEntry(f[0], off, len))
      case _ => None
  }

  function ParseLines(lines: seq<string>): (r: Option<seq<IndexEntry>>) {
    if lines == [] then Some([])
    else match (ParseLine(lines[0]), ParseLines(lines[1..]))
      case (Some(e), Some(rest)) => Some([e] + rest)
      case _ => None
  }

  function HostEntries(text: string): (r: Option<seq<IndexEntry>>) {
    ParseLines(Tokens(text, IsLineBreak))
  }

  predicate NotBlank(line: string) { Tokens(line, IsSpace) != [] }

  function NonBlank(lines: seq<string>): (r: seq<string>) {
    if lines == [] then []
    else (if NotBlank(lines[0]) then [lines[0]] else []) + NonBlank(lines[1..])
  }

  function GateEntries(text: string): (r: Option<seq<IndexEntry>>) {
    ParseLines(NonBlank(Tokens(text, IsNewline)))
  }

  /** The dict a list of entries leaves behind: a later line wins. */
  function AsMap(index: seq<IndexEntry>): (m: map<string, (nat, nat)>) {
    if index == [] then map[]
    else
      var e := index[|index| - 1];
      AsMap(index[..|index| - 1])[e.digest := (e.off, e.len)]
  }

  lemma {:induction false} AsMapAppend(index: seq<IndexEntry>, e: IndexEntry)
    ensures AsMap(index + [e]) == AsMap(index)[e.digest := (e.off, e.len)]
  {
    assert (index + [e])[..|index + [e]| - 1] == index;
  }

  /** What a pass has read so far, put before what the rest of the text will give. */
  ghost function After(done: seq<IndexEntry>, rest: Option<seq<IndexEntry>>): Option<seq<IndexEntry>> {
    match rest
    case None => None
    case Some(es) => Some(done + es)
  }

  lemma {:induction false} AfterNothing(rest: Option<seq<IndexEntry>>)
    ensures After([], rest) == rest
  {
    if rest.Some? { assert [] + rest.value == rest.value; }
  }

  lemma {:induction false} AfterLine(done: seq<IndexEntry>, lines: seq<string>)
    requires lines != []
    ensures After(done, ParseLines(lines)) == match ParseLine(lines[0])
                                              case None => None
                                              case Some(e) => After(done + [e], ParseLines(lines[1..]))
  {
    var e := ParseLine(lines[0]);
    var rest := ParseLines(lines[1..]);
    if e.Some? && rest.Some? {
      assert done + ([e.value] + rest.value) == done + [e.value] + rest.value;
    }
  }

  /** `_parse_index`: one pass that fills a dict, or dies on the first malformed line. */
  method ParseIndex(text: string) returns (r: Option<map<string, (nat, nat)>>)
    ensures r == match HostEntries(text) case None => None case Some(es) => Some(AsMap(es))
  {
    var lines := Tokens(text, IsLineBreak);
    var index := map[];
    ghost var done: seq<IndexEntry> := [];
    AfterNothing(ParseLines(lines));
    assert lines[0..] == lines;
    for i := 0 to |lines|
      invariant index == AsMap(done)
      invariant HostEntries(text) == After(done, ParseLines(lines[i..]))
    {
      AfterLine(done, lines[i..]);
      assert lines[i..][1..] == lines[i + 1..];
      var e := ParseLine(lines[i]);
      if e.None? {
        r := None;
        return;
      }
      index := index[e.value.digest := (e.value.off, e.value.len)];
      AsMapAppend(done, e.value);
      done := done + [e.value];
    }
    assert done + [] == done;
    r := Some(index);
  }

  /** `_load_index`: the gate's pass, which keeps a list and skips blank lines. */
  method LoadIndex(text: string) returns (r: Option<seq<IndexEntry>>)
    ensures r == GateEntries(text)
  {
    var lines := Tokens(text, IsNewline);
    var index := [];
    AfterNothing(ParseLines(NonBlank(lines)));
    assert lines[0..] == lines;
    for i := 0 to |lines|
      invariant GateEntries(text) == After(index, ParseLines(NonBlank(lines[i..])))
    {
      assert lines[i..][1..] == lines[i + 1..];
      if NotBlank(lines[i]) {
        var kept := NonBlank(lines[i..]);
        assert kept[1..] == NonBlank(lines[i + 1..]);
        AfterLine(index, kept);
        var e := ParseLine(lines[i]);
        if e.None? {
          return None;
        }
        index := index + [e.value];
      } else {
        assert NonBlank(lines[i..]) == NonBlank(lines[i + 1..]);
      }
    }
    assert index + [] == index;
    r := Some(index);
  }

  // ------------------------------------------------------------- properties

  lemma {:induction false} TokensThree(d: string, a: string, b: string)
    requires IsWord(d) && IsWord(a) && IsWord(b)
    ensures Tokens(d + " " + a + " " + b, IsSpace) == [d, a, b]
  {
    var tail := a + [' '] + b;
    assert d + " " + a + " " + b == d + [' '] + tail;
    TokensSplit([], d, ' ', tail, IsSpace);
    TokensSplit([], a, ' ', b, IsSpace);
    TokensWord([], a, IsSpace);
    TokensWord([], b, IsSpace);
    TokensWord([], d, IsSpace);
    assert [] + a == a && [] + b == b && [] + d == d;
  }

  lemma {:induction false} LineParses(e: IndexEntry)
    requires IsWord(e.digest)
    ensures ParseLine(PrintLine(e)) == Some(e)
    ensures NotBlank(PrintLine(e))
  {
    DecRoundTrips(e.off);
    DecRoundTrips(e.len);
    TokensThree(e.digest, Dec(e.off), Dec(e.len));
  }

  lemma {:induction false} LineHasNoBreak(e: IndexEntry)
    requires IsWord(e.digest)
    ensures PrintLine(e) != [] && forall c | c in PrintLine(e) :: !IsLineBreak(c)
  {
    DecRoundTrips(e.off);
    DecRoundTrips(e.len);
    forall c | c in PrintLine(e) ensures !IsLineBreak(c) {
      assert c in e.digest || c == ' ' || c in Dec(e.off) || c in Dec(e.len);
    }
  }

  lemma {:induction false} PrintedLines(index: seq<IndexEntry>, sep: char -> bool)
    requires forall e | e in index :: IsWord(e.digest)
    requires sep('\n') && forall c :: sep(c) ==> IsLineBreak(c)
    ensures ParseLines(Tokens(Print(index), sep)) == Some(index)
    ensures NonBlank(Tokens(Print(index), sep)) == Tokens(Print(index), sep)
  {
    if index != [] {
      var e := index[0];
      LineParses(e);
      LineHasNoBreak(e);
      PrintedLines(index[1..], sep);
      assert Print(index) == PrintLine(e) + ['\n'] + Print(index[1..]);
      TokensSplit([], PrintLine(e), '\n', Print(index[1..]), sep);
      TokensWord([], PrintLine(e), sep);
      assert [] + PrintLine(e) == PrintLine(e);
      var t := Tokens(Print(index), sep);
      assert t == [PrintLine(e)] + Tokens(Print(index[1..]), sep);
      assert t[1..] == Tokens(Print(index[1..]), sep);
      assert index == [e] + index[1..];
    }
  }

  /**
   The index survives its text form, with decimal numbers of any size: both parsers give back every
   printed entry, in order, so they agree on whatever the producer prints.
   */
  lemma {:induction false} PrintedIndexRoundTrips(index: seq<IndexEntry>)
    requires forall e | e in index :: IsWord(e.digest)
    ensures HostEntries(Print(index)) == Some(index)
    ensures GateEntries(Print(index)) == Some(index)
  {
    PrintedLines(index, IsLineBreak);
    PrintedLines(index, IsNewline);
  }

  lemma {:induction false} AsMapLookup(index: seq<IndexEntry>, e: IndexEntry)
    requires e in index
    requires forall i, j | 0 <= i < j < |index| :: index[i].digest != index[j].digest
    ensures e.digest in AsMap(index) && AsMap(index)[e.digest] == (e.off, e.len)
  {
    var z := index[|index| - 1];
    if e != z {
      assert index == index[..|index| - 1] + [z];
      AsMapLookup(index[..|index| - 1], e);
      assert e.digest != z.digest by {
        var i :| 0 <= i < |index| && index[i] == e;
      }
    }
  }

  lemma {:induction false} AsMapKeys(index: seq<IndexEntry>, d: string)
    requires d in AsMap(index)
    ensures exists e | e in index :: e.digest == d && AsMap(index)[d] == (e.off, e.len)
  {
    var z := index[|index| - 1];
    assert index == index[..|index| - 1] + [z];
    if d != z.digest {
      AsMapKeys(index[..|index| - 1], d);
    } else {
      assert z in index;
    }
  }

  lemma {:induction false} BlankKillsHost(lines: seq<string>)
    ensures (exists l | l in lines :: !NotBlank(l)) ==> ParseLines(lines) == None
    ensures (forall l | l in lines :: NotBlank(l)) ==> NonBlank(lines) == lines
  {
    if lines != [] {
      assert lines == [lines[0]] + lines[1..];
      BlankKillsHost(lines[1..]);
    }
  }

  /**
   Exactly where the two parsers can differ on text whose only line breaks are newlines: the host dies on
   a line of white space, which the gate skips. On every other such text they give the same answer.
   */
  lemma {:induction false} ParsersDifferOnlyOnBlankLines(text: string)
    requires forall c | c in text :: IsLineBreak(c) == IsNewline(c)
    ensures var blank := exists l | l in Tokens(text, IsNewline) :: !NotBlank(l);
            HostEntries(text) == if blank then None else GateEntries(text)
  {
    TokensAgree([], text, IsLineBreak, IsNewline);
    BlankKillsHost(Tokens(text, IsNewline));
  }
}
