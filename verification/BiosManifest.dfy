/** The BIOS manifest in a save state's meta text: printing, parsing, and the warning made of it. */
module BiosManifest {
  import opened Common

  // ----- Text -----

  predicate StartsAt(t: string, k: string, p: int) {
    0 <= p && p + |k| <= |t| && t[p..p + |k|] == k
  }

  predicate LineStart(t: string, p: int) {
    p == 0 || (0 < p <= |t| && (t[p - 1] == '\n' || t[p - 1] == '\r'))
  }

  /** No line break of either kind, and no end of a C string. */
  predicate Plain(s: string) {
    forall c <- s :: c != '\n' && c != '\r' && c != 0 as char
  }

  /** std::string::find */
  function Find(t: string, k: string, pos: nat): (r: Option<nat>)
    ensures r.Some? ==> pos <= r.value && StartsAt(t, k, r.value)
    ensures forall q: nat :: pos <= q && (r.None? || q < r.value) ==> !StartsAt(t, k, q)
    decreases |t| + 1 - pos
  {
    if pos > |t| then None
    else if StartsAt(t, k, pos) then Some(pos)
    else Find(t, k, pos + 1)
  }

  function EndOfLine(t: string, p: nat): (e: nat)
    requires p <= |t|
    ensures p <= e <= |t| && (e < |t| ==> t[e] == '\n') && '\n' !in t[p..e]
    decreases |t| - p
  {
    if p == |t| || t[p] == '\n' then p else EndOfLine(t, p + 1)
  }

  function DropReturn(s: string): string {
    if |s| > 0 && s[|s| - 1] == '\r' then s[..|s| - 1] else s
  }

  function RestOfLine(t: string, p: nat): string
    requires p <= |t|
  {
    DropReturn(t[p..EndOfLine(t, p)])
  }

  // ----- The value of a key -----

  predicate MatchAt(t: string, k: string, p: int) {
    StartsAt(t, k, p) && LineStart(t, p)
  }

  /** The first line start from p on at which k stands. */
  function FirstMatch(t: string, k: string, p: nat): (r: Option<nat>)
    ensures r.Some? ==> p <= r.value && MatchAt(t, k, r.value)
    ensures forall q: nat :: p <= q && (r.None? || q < r.value) ==> !MatchAt(t, k, q)
    decreases |t| + 1 - p
  {
    if p > |t| then None
    else if MatchAt(t, k, p) then Some(p)
    else FirstMatch(t, k, p + 1)
  }

  /** What follows `k` on the first line that starts with it; empty if no line does. */
  function Value(t: string, k: string): string {
    var m := FirstMatch(t, k, 0);
    if m.None? then "" else RestOfLine(t, m.value + |k|)
  }

  /** An occurrence of a key within a line cannot reach over the start of another line. */
  lemma NoStartInside(t: string, k: string, p: nat, q: nat)
    requires Plain(k) && StartsAt(t, k, p) && p < q < p + |k|
    ensures !LineStart(t, q)
  {
    assert t[q - 1] == t[p..p + |k|][q - 1 - p];
    assert k[q - 1 - p] in k;
  }

  lemma FirstIs(t: string, k: string, p: nat)
    requires MatchAt(t, k, p) && forall q: nat :: q < p ==> !MatchAt(t, k, q)
    ensures FirstMatch(t, k, 0) == Some(p)
  {
    hide MatchAt;
    var m := FirstMatch(t, k, 0);
    assert m.Some? && !(p < m.value);
  }

  lemma NoneFirst(t: string, k: string, pos: nat)
    requires Find(t, k, pos).None? && forall q: nat :: q < pos ==> !MatchAt(t, k, q)
    ensures FirstMatch(t, k, 0).None?
  {
    hide StartsAt, LineStart;
    forall q: nat
      ensures !MatchAt(t, k, q)
    {
      if q >= pos {
        assert !StartsAt(t, k, q);
      }
    }
  }

  /** jsst_meta_get_val: skipping a whole key length after a match inside a line misses nothing. */
  method GetVal(meta: string, key: string) returns (out: string)
    requires Plain(key)
    ensures out == Value(meta, key + "=")
  {
    hide StartsAt, Find, FirstMatch, RestOfLine;
    var k := key + "=";
    var pos := 0;
    var at := Find(meta, k, pos);
    while at.Some?
      invariant at == Find(meta, k, pos)
      invariant forall q: nat :: q < pos ==> !MatchAt(meta, k, q)
      decreases |meta| + 1 - pos
    {
      assert forall q: nat :: q < at.value ==> !MatchAt(meta, k, q);
      pos := at.value;
      Within(meta, k, pos);
      var lineStart := pos == 0 || meta[pos - 1] == '\n' || meta[pos - 1] == '\r';
      if lineStart {
        FirstIs(meta, k, pos);
        out := RestOfLine(meta, pos + |k|);
        return;
      }
      forall q: nat | pos < q < pos + |k|
        ensures !MatchAt(meta, k, q)
      {
        NoStartInside(meta, k, pos, q);
      }
      pos := pos + |k|;
      at := Find(meta, k, pos);
    }
    NoneFirst(meta, k, pos);
    out := "";
  }

  lemma Within(t: string, k: string, p: nat)
    requires StartsAt(t, k, p)
    ensures p + |k| <= |t|
  {
  }

  // ----- Numbers -----

  predicate IsDigit(c: char) {
    '0' <= c <= '9'
  }

  function DigitChar(d: nat): (c: char)
    requires d < 10
    ensures IsDigit(c)
  {
    '0' + d as char
  }

  function DigitOf(c: char): (d: nat)
    requires IsDigit(c)
    ensures d < 10
  {
    (c - '0') as int
  }

  /** %zu and %llu */
  function Dec(n: nat): (s: string)
    ensures |s| > 0 && forall c <- s :: IsDigit(c)
  {
    if n < 10 then [DigitChar(n)] else Dec(n / 10) + [DigitChar(n % 10)]
  }

  function DigitsValue(s: string): nat
    requires forall c <- s :: IsDigit(c)
  {
    if |s| == 0 then 0 else 10 * DigitsValue(s[..|s| - 1]) + DigitOf(s[|s| - 1])
  }

  /** The longest prefix of digits. */
  function DigitRun(s: string): (r: string)
    ensures forall c <- r :: IsDigit(c)
    ensures r <= s
  {
    if |s| == 0 || !IsDigit(s[0]) then "" else [s[0]] + DigitRun(s[1..])
  }

  predicate IsSpace(c: char) {
    c == ' ' || '\t' <= c <= '\r'
  }

  function SkipSpace(s: string): string {
    if |s| > 0 && IsSpace(s[0]) then SkipSpace(s[1..]) else s
  }

  /** Sign and magnitude as std::stoi and std::stoull read them; None where they throw invalid_argument. */
  function Scan(s: string): Option<(bool, nat)> {
    var t := SkipSpace(s);
    var signed := |t| > 0 && (t[0] == '-' || t[0] == '+');
    var run := DigitRun(if signed then t[1..] else t);
    if |run| == 0 then None else Some((signed && t[0] == '-', DigitsValue(run)))
  }

  /** std::stoi, None where it throws. */
  function Stoi(s: string): Option<int> {
    var m := Scan(s);
    if m.None? then None
    else
      var v := if m.value.0 then -(m.value.1 as int) else m.value.1;
      if -0x8000_0000 <= v < 0x8000_0000 then Some(v) else None
  }

  /** std::stoull, None where it throws; a minus sign negates modulo 2^64. */
  function Stoull(s: string): Option<nat> {
    var m := Scan(s);
    if m.None? || m.value.1 >= 0x1_0000_0000_0000_0000 then None
    else Some(if m.value.0 then (0x1_0000_0000_0000_0000 - m.value.1) % 0x1_0000_0000_0000_0000 else m.value.1)
  }

  lemma {:induction false} DecValue(n: nat)
    ensures DigitsValue(Dec(n)) == n
  {
    if n >= 10 {
      DecValue(n / 10);
      assert Dec(n)[..|Dec(n)| - 1] == Dec(n / 10);
    } else {
      assert Dec(n)[..0] == "";
    }
  }

  lemma {:induction false} RunOfDigits(s: string)
    requires forall c <- s :: IsDigit(c)
    ensures DigitRun(s) == s
  {
    if |s| > 0 {
      RunOfDigits(s[1..]);
    }
  }

  lemma ScanDec(n: nat)
    ensures Scan(Dec(n)) == Some((false, n))
  {
    var s := Dec(n);
    assert s[0] in s;
    assert SkipSpace(s) == s;
    RunOfDigits(s);
    DecValue(n);
  }

  // ----- Entries and their order -----

  datatype Entry = Entry(name: string, size: nat, sha256: string)

  predicate TextLess(a: string, b: string) {
    if |b| == 0 then false
    else if |a| == 0 then true
    else if a[0] != b[0] then a[0] < b[0]
    else TextLess(a[1..], b[1..])
  }

  predicate Less(a: Entry, b: Entry) {
    if a.name != b.name then TextLess(a.name, b.name)
    else if a.size != b.size then a.size < b.size
    else TextLess(a.sha256, b.sha256)
  }

  predicate InOrder(es: seq<Entry>) {
    forall i, j :: 0 <= i < j < |es| ==> !Less(es[j], es[i])
  }

  function Insert(e: Entry, es: seq<Entry>): seq<Entry> {
    if |es| == 0 || !Less(es[0], e) then [e] + es else [es[0]] + Insert(e, es[1..])
  }

  /** std::sort: the order is total, so every sorting algorithm gives this result. */
  function Sorted(es: seq<Entry>): seq<Entry> {
    if |es| == 0 then [] else Insert(es[0], Sorted(es[1..]))
  }

  lemma {:induction false} TextOrder(a: string, b: string)
    ensures !(TextLess(a, b) && TextLess(b, a))
    ensures !TextLess(a, b) && !TextLess(b, a) ==> a == b
  {
    if |a| > 0 && |b| > 0 && a[0] == b[0] {
      TextOrder(a[1..], b[1..]);
      assert a == [a[0]] + a[1..] && b == [b[0]] + b[1..];
    }
  }

  lemma {:induction false} TextTransitive(a: string, b: string, c: string)
    requires !TextLess(b, a) && !TextLess(c, b)
    ensures !TextLess(c, a)
  {
    if |a| > 0 && |b| > 0 && |c| > 0 && a[0] == b[0] == c[0] {
      TextTransitive(a[1..], b[1..], c[1..]);
    }
  }

  lemma Order(a: Entry, b: Entry)
    ensures !(Less(a, b) && Less(b, a))
    ensures !Less(a, b) && !Less(b, a) ==> a == b
  {
    TextOrder(a.name, b.name);
    TextOrder(a.sha256, b.sha256);
  }

  lemma Transitive(a: Entry, b: Entry, c: Entry)
    requires !Less(b, a) && !Less(c, b)
    ensures !Less(c, a)
  {
    hide TextLess;
    TextOrder(a.name, b.name);
    TextOrder(b.name, c.name);
    TextOrder(a.name, c.name);
    if !TextLess(b.name, a.name) && !TextLess(c.name, b.name) {
      TextTransitive(a.name, b.name, c.name);
    }
    if !TextLess(b.sha256, a.sha256) && !TextLess(c.sha256, b.sha256) {
      TextTransitive(a.sha256, b.sha256, c.sha256);
    }
  }

  lemma {:induction false} InsertSorts(e: Entry, es: seq<Entry>)
    requires InOrder(es)
    ensures InOrder(Insert(e, es)) && multiset(Insert(e, es)) == multiset(es) + multiset{e}
  {
    hide Less;
    if |es| == 0 {
    } else if Less(es[0], e) {
      InsertSorts(e, es[1..]);
      assert es == [es[0]] + es[1..];
      var r := Insert(e, es[1..]);
      forall j | 0 <= j < |r|
        ensures !Less(r[j], es[0])
      {
        assert r[j] in multiset(r);
        Order(es[0], e);
        if r[j] != e {
          assert r[j] in es[1..];
        }
      }
    } else {
      forall j | 0 <= j < |es|
        ensures !Less(es[j], e)
      {
        if j > 0 {
          Transitive(e, es[0], es[j]);
        }
      }
    }
  }

  lemma {:induction false} SortedSorts(es: seq<Entry>)
    ensures InOrder(Sorted(es)) && multiset(Sorted(es)) == multiset(es)
  {
    hide Less;
    if |es| > 0 {
      SortedSorts(es[1..]);
      InsertSorts(es[0], Sorted(es[1..]));
      assert es == [es[0]] + es[1..];
    }
  }

  lemma LeastFirst(xs: seq<Entry>, e: Entry)
    requires InOrder(xs) && e in xs
    ensures xs[0] == e || !Less(e, xs[0])
  {
    hide Less;
    var j :| 0 <= j < |xs| && xs[j] == e;
  }

  lemma WithoutFirst(xs: seq<Entry>)
    requires |xs| > 0
    ensures multiset(xs[1..]) == multiset(xs) - multiset{xs[0]}
    ensures InOrder(xs) ==> InOrder(xs[1..])
  {
    hide Less;
    assert xs == [xs[0]] + xs[1..];
  }

  /** There is one sorted arrangement of a multiset of entries. */
  lemma {:induction false} SortedUnique(xs: seq<Entry>, ys: seq<Entry>)
    requires InOrder(xs) && InOrder(ys) && multiset(xs) == multiset(ys)
    ensures xs == ys
    decreases |xs|
  {
    hide Less, InOrder;
    assert |multiset(xs)| == |multiset(ys)|;
    if |xs| > 0 {
      assert xs[0] in multiset(ys) && ys[0] in multiset(xs);
      LeastFirst(ys, xs[0]);
      LeastFirst(xs, ys[0]);
      Order(xs[0], ys[0]);
      WithoutFirst(xs);
      WithoutFirst(ys);
      SortedUnique(xs[1..], ys[1..]);
      assert xs == [xs[0]] + xs[1..] && ys == [ys[0]] + ys[1..];
    }
  }

  // ----- Looking up a line of a text of lines -----

  /** Whole lines, none of which starts with k. */
  predicate Foreign(t: string, k: string) {
    (t == "" || t[|t| - 1] == '\n') && forall q: nat :: q <= |t| ==> !MatchAt(t, k, q)
  }

  lemma NoBreakIn(w: string, k: string, q: nat)
    requires Plain(k) && StartsAt(w, k, q)
    ensures forall n :: q <= n < q + |k| ==> w[n] != '\n' && w[n] != '\r'
  {
    forall n | q <= n < q + |k|
      ensures w[n] != '\n' && w[n] != '\r'
    {
      assert w[n] == w[q..q + |k|][n - q] == k[n - q];
      assert k[n - q] in k;
    }
  }

  lemma StartsInside(t: string, u: string, k: string, q: nat)
    requires q + |k| <= |t|
    ensures StartsAt(t + u, k, q) <==> StartsAt(t, k, q)
  {
    assert (t + u)[q..q + |k|] == t[q..q + |k|];
  }

  lemma MatchStays(t: string, u: string, k: string, q: nat)
    requires Plain(k) && |k| > 0 && (t == "" || t[|t| - 1] == '\n') && q < |t|
    ensures MatchAt(t + u, k, q) <==> MatchAt(t, k, q)
  {
    hide Plain;
    assert LineStart(t + u, q) <==> LineStart(t, q);
    assert (t + u)[|t| - 1] == '\n';
    if StartsAt(t + u, k, q) {
      NoBreakIn(t + u, k, q);
      StartsInside(t, u, k, q);
    } else if StartsAt(t, k, q) {
      StartsInside(t, u, k, q);
    }
  }

  lemma NoMatchInside(t: string, line: string, u: string, k: string, q: nat)
    requires Plain(line) && |t| < q <= |t| + |line|
    ensures !MatchAt(t + line + "\n" + u, k, q)
  {
    assert (t + line + "\n" + u)[q - 1] == line[q - 1 - |t|];
    assert line[q - 1 - |t|] in line;
  }

  lemma HeadOfLine(t: string, line: string, u: string, k: string)
    requires Plain(k) && StartsAt(t + line + "\n" + u, k, |t|)
    ensures StartsAt(line, k, 0)
  {
    var w := t + line + "\n" + u;
    NoBreakIn(w, k, |t|);
    assert w[|t| + |line|] == '\n';
    assert w[|t|..|t| + |k|] == line[..|k|];
  }

  /** One more line that does not start with k. */
  lemma ForeignMore(t: string, line: string, k: string)
    requires Foreign(t, k) && Plain(line) && Plain(k) && |k| > 0 && !StartsAt(line, k, 0)
    ensures Foreign(t + line + "\n", k)
  {
    hide StartsAt, LineStart;
    var w := t + line + "\n";
    assert w == t + line + "\n" + "" && w == t + (line + "\n");
    forall q: nat | q <= |w|
      ensures !MatchAt(w, k, q)
    {
      if q < |t| {
        MatchStays(t, line + "\n", k, q);
      } else if q == |t| {
        if StartsAt(w, k, q) {
          HeadOfLine(t, line, "", k);
        }
      } else if q <= |t| + |line| {
        NoMatchInside(t, line, "", k, q);
      } else {
        PastEnd(w, k, q);
      }
    }
  }

  lemma PastEnd(w: string, k: string, q: nat)
    requires |k| > 0 && q >= |w|
    ensures !StartsAt(w, k, q)
  {
  }

  lemma HitStarts(t: string, line: string, u: string, k: string)
    requires (t == "" || t[|t| - 1] == '\n') && StartsAt(line, k, 0)
    ensures MatchAt(t + line + "\n" + u, k, |t|)
  {
    var w := t + line + "\n" + u;
    assert w[|t|..|t| + |k|] == line[0..|k|];
    assert |t| > 0 ==> w[|t| - 1] == '\n';
  }

  lemma HitMatches(t: string, line: string, u: string, k: string)
    requires Foreign(t, k) && Plain(k) && |k| > 0 && StartsAt(line, k, 0)
    ensures FirstMatch(t + line + "\n" + u, k, 0) == Some(|t|)
  {
    hide Plain, MatchAt, StartsAt;
    var w := t + line + "\n" + u;
    assert w == t + (line + "\n" + u);
    HitStarts(t, line, u, k);
    forall q: nat | q < |t|
      ensures !MatchAt(w, k, q)
    {
      MatchStays(t, line + "\n" + u, k, q);
    }
    FirstIs(w, k, |t|);
  }

  lemma PlainEnd(s: string, n: nat)
    requires Plain(s) && n <= |s|
    ensures DropReturn(s[n..]) == s[n..]
  {
    if n < |s| {
      assert s[n..][|s| - n - 1] == s[|s| - 1];
      assert s[|s| - 1] in s;
    }
  }

  lemma PlainLine(s: string)
    requires Plain(s)
    ensures '\n' !in s
  {
  }

  /** The first line that starts with k gives the value. */
  lemma Hit(t: string, line: string, u: string, k: string)
    requires Foreign(t, k) && Plain(line) && Plain(k) && |k| > 0 && StartsAt(line, k, 0)
    ensures Value(t + line + "\n" + u, k) == line[|k|..]
  {
    hide Plain, Foreign, FirstMatch, EndOfLine, DropReturn;
    var w := t + line + "\n" + u;
    HitMatches(t, line, u, k);
    assert '\n' !in line by { PlainLine(line); }
    LineEnds(t, line, u, |t| + |k|);
    assert w[|t| + |k|..|t| + |line|] == line[|k|..];
    PlainEnd(line, |k|);
  }

  lemma {:induction false} LineEnds(t: string, line: string, u: string, p: nat)
    requires '\n' !in line && |t| <= p <= |t| + |line|
    ensures EndOfLine(t + line + "\n" + u, p) == |t| + |line|
    decreases |t| + |line| - p
  {
    var w := t + line + "\n" + u;
    if p < |t| + |line| {
      assert w[p] == line[p - |t|] && line[p - |t|] in line;
      LineEnds(t, line, u, p + 1);
    } else {
      assert w[p] == '\n';
    }
  }

  function Text(lines: seq<string>): string {
    if |lines| == 0 then "" else lines[0] + "\n" + Text(lines[1..])
  }

  lemma {:induction false} Lookup(t: string, lines: seq<string>, u: string, k: string, j: nat)
    requires Foreign(t, k) && Plain(k) && |k| > 0 && j < |lines| && (forall l <- lines :: Plain(l))
    requires StartsAt(lines[j], k, 0) && forall i :: 0 <= i < j ==> !StartsAt(lines[i], k, 0)
    ensures Value(t + Text(lines) + u, k) == lines[j][|k|..]
    decreases j
  {
    hide StartsAt, Foreign, Value, Plain;
    var rest := Text(lines[1..]);
    if j == 0 {
      Hit(t, lines[0], rest + u, k);
      assert t + Text(lines) + u == t + lines[0] + "\n" + (rest + u);
    } else {
      ForeignMore(t, lines[0], k);
      Lookup(t + lines[0] + "\n", lines[1..], u, k, j - 1);
      assert t + Text(lines) + u == (t + lines[0] + "\n") + rest + u;
    }
  }

  // ----- Printing -----

  /** What %s prints of a std::string's c_str(). */
  function CText(s: string): string {
    if |s| == 0 || s[0] == 0 as char then "" else [s[0]] + CText(s[1..])
  }

  /** snprintf into char line[512] */
  function Clip(s: string): string {
    if |s| <= 511 then s else s[..511]
  }

  datatype Field = Name | Size | Hash

  function FieldText(f: Field): string {
    match f
    case Name => "name"
    case Size => "size"
    case Hash => "sha256"
  }

  function Key(i: nat, f: Field): string {
    "bios_" + Dec(i) + "_" + FieldText(f)
  }

  const COUNT := "bios_count"

  function FieldValue(e: Entry, f: Field): string {
    match f
    case Name => CText(e.name)
    case Size => Dec(e.size)
    case Hash => CText(e.sha256)
  }

  function LineOf(i: nat, e: Entry, f: Field): string {
    Key(i, f) + "=" + FieldValue(e, f)
  }

  function CountLine(n: nat): string {
    COUNT + "=" + Dec(n)
  }

  function PrintLine(body: string): string {
    Clip(body + "\n")
  }

  function PrintEntry(i: nat, e: Entry): string {
    PrintLine(LineOf(i, e, Name)) + PrintLine(LineOf(i, e, Size)) + PrintLine(LineOf(i, e, Hash))
  }

  function PrintUpTo(bios: seq<Entry>, n: nat): string
    requires n <= |bios|
  {
    if n == 0 then PrintLine(CountLine(|bios|)) else PrintUpTo(bios, n - 1) + PrintEntry(n - 1, bios[n - 1])
  }

  function Printed(bios: seq<Entry>): string {
    PrintUpTo(bios, |bios|)
  }

  method AppendManifest(meta: string, bios: seq<Entry>) returns (out: string)
    ensures out == meta + Printed(bios)
  {
    hide PrintLine, LineOf;
    out := meta + PrintLine(CountLine(|bios|));
    for i := 0 to |bios|
      invariant out == meta + PrintUpTo(bios, i)
    {
      out := out + PrintLine(LineOf(i, bios[i], Name));
      out := out + PrintLine(LineOf(i, bios[i], Size));
      out := out + PrintLine(LineOf(i, bios[i], Hash));
      assert out == meta + (PrintUpTo(bios, i) + PrintEntry(i, bios[i]));
    }
  }

  // ----- Parsing -----

  function SizeOr0(s: string): nat {
    var v := Stoull(s);
    if v.Some? then v.value else 0
  }

  function EntryAt(meta: string, i: nat): Entry {
    Entry(Value(meta, Key(i, Name) + "="), SizeOr0(Value(meta, Key(i, Size) + "=")), Value(meta, Key(i, Hash) + "="))
  }

  function Entries(meta: string, n: nat): (es: seq<Entry>)
    ensures |es| == n
  {
    if n == 0 then [] else Entries(meta, n - 1) + [EntryAt(meta, n - 1)]
  }

  function CountIn(meta: string): nat {
    var v := Stoi(Value(meta, COUNT + "="));
    if v.Some? && v.value > 0 then v.value else 0
  }

  function Parsed(meta: string): seq<Entry> {
    if Value(meta, COUNT + "=") == "" then [] else Sorted(Entries(meta, CountIn(meta)))
  }

  lemma KeyPlain(i: nat, f: Field)
    ensures Plain(Key(i, f)) && Plain(Key(i, f) + "=") && Plain(COUNT) && Plain(COUNT + "=")
  {
    assert forall c <- Dec(i) :: IsDigit(c);
  }

  method ManifestFromMeta(meta: string) returns (out: seq<Entry>)
    ensures out == Parsed(meta)
  {
    hide Value, Plain, Key;
    KeyPlain(0, Name);
    out := [];
    var countText := GetVal(meta, COUNT);
    if countText == "" {
      return;
    }
    var parsed := Stoi(countText);
    var count := if parsed.Some? then parsed.value else 0;
    if count < 0 {
      count := 0;
    }
    for i := 0 to count
      invariant out == Entries(meta, i)
    {
      KeyPlain(i, Name);
      KeyPlain(i, Size);
      KeyPlain(i, Hash);
      var name := GetVal(meta, Key(i, Name));
      var sizeText := GetVal(meta, Key(i, Size));
      var sha256 := GetVal(meta, Key(i, Hash));
      out := out + [Entry(name, SizeOr0(sizeText), sha256)];
    }
    out := Sorted(out);
  }

  // ----- Printed lines and the keys they answer to -----

  function LinesUpTo(bios: seq<Entry>, n: nat): (lines: seq<string>)
    requires n <= |bios|
    ensures |lines| == 1 + 3 * n
  {
    if n == 0 then [CountLine(|bios|)]
    else LinesUpTo(bios, n - 1) + [LineOf(n - 1, bios[n - 1], Name), LineOf(n - 1, bios[n - 1], Size),
      LineOf(n - 1, bios[n - 1], Hash)]
  }

  function FieldIndex(f: Field): nat {
    match f
    case Name => 0
    case Size => 1
    case Hash => 2
  }

  lemma {:induction false} LinesAt(bios: seq<Entry>, n: nat, i: nat, f: Field)
    requires i < n <= |bios|
    ensures LinesUpTo(bios, n)[1 + 3 * i + FieldIndex(f)] == LineOf(i, bios[i], f) &&
      LinesUpTo(bios, n)[0] == CountLine(|bios|)
    decreases n
  {
    hide LineOf, CountLine;
    if i < n - 1 {
      LinesAt(bios, n - 1, i, f);
    } else if n > 1 {
      LinesAt(bios, n - 1, 0, Name);
    }
  }

  /** Every line after the count is a field of an entry. */
  lemma LineIs(bios: seq<Entry>, j: nat) returns (i: nat, f: Field)
    requires 0 < j < 1 + 3 * |bios|
    ensures i < |bios| && j == 1 + 3 * i + FieldIndex(f)
  {
    i := (j - 1) / 3;
    f := if (j - 1) % 3 == 0 then Name else if (j - 1) % 3 == 1 then Size else Hash;
  }

  lemma {:induction false} RunOfPrefix(a: string, c: char, rest: string)
    requires (forall d <- a :: IsDigit(d)) && !IsDigit(c)
    ensures DigitRun(a + [c] + rest) == a
  {
    var w := a + [c] + rest;
    if |a| > 0 {
      assert w[1..] == a[1..] + [c] + rest;
      RunOfPrefix(a[1..], c, rest);
    }
  }

  /** Numbers written before an underscore are told apart by any prefix that reaches it. */
  lemma NumberApart(i: nat, j: nat, x: string, y: string)
    requires Dec(i) + "_" + x <= Dec(j) + "_" + y
    ensures i == j && x <= y
  {
    var a, b := Dec(i) + "_" + x, Dec(j) + "_" + y;
    var z := b[|a|..];
    assert b == Dec(i) + ['_'] + (x + z);
    RunOfPrefix(Dec(i), '_', x + z);
    RunOfPrefix(Dec(j), '_', y);
    assert b == Dec(j) + ['_'] + y;
    DecValue(i);
    DecValue(j);
    assert y == b[|Dec(j)| + 1..] && x + z == b[|Dec(i)| + 1..];
  }

  lemma FieldApart(f: Field, g: Field, v: string)
    ensures FieldText(f) + "=" <= FieldText(g) + "=" + v <==> f == g
  {
    var a, b := FieldText(f) + "=", FieldText(g) + "=" + v;
    if f == g {
      assert b[..|a|] == a;
    } else {
      assert a[0] != b[0] || a[1] != b[1];
    }
  }

  /** A line answers to its own key only. */
  lemma KeyOnLine(i: nat, f: Field, j: nat, g: Field, e: Entry)
    ensures StartsAt(LineOf(j, e, g), Key(i, f) + "=", 0) <==> i == j && f == g
  {
    var line, k := LineOf(j, e, g), Key(i, f) + "=";
    var v := FieldValue(e, g);
    hide FieldValue, Dec, FieldText;
    assert line == "bios_" + (Dec(j) + "_" + (FieldText(g) + "=" + v));
    assert k == "bios_" + (Dec(i) + "_" + (FieldText(f) + "="));
    FieldApart(f, g, v);
    if StartsAt(line, k, 0) {
      var x, y := Dec(i) + "_" + (FieldText(f) + "="), Dec(j) + "_" + (FieldText(g) + "=" + v);
      assert line[..|k|] == k && k[5..] == x && line[5..] == y;
      assert y[..|x|] == line[5..][..|x|] == line[5..|k|] == x;
      NumberApart(i, j, FieldText(f) + "=", FieldText(g) + "=" + v);
    }
    if i == j && f == g {
      assert line == k + v;
      assert line[0..|k|] == k;
    }
  }

  lemma SameChar(w: string, k: string, n: nat)
    requires n < |k|
    ensures StartsAt(w, k, 0) ==> n < |w| && w[n] == k[n]
  {
    if StartsAt(w, k, 0) {
      assert w[0..|k|][n] == k[n];
    }
  }

  lemma CountOnLine(i: nat, f: Field, e: Entry, n: nat)
    ensures !StartsAt(LineOf(i, e, f), COUNT + "=", 0) && !StartsAt(CountLine(n), Key(i, f) + "=", 0)
    ensures StartsAt(CountLine(n), COUNT + "=", 0)
  {
    var d := Dec(i);
    assert d[0] in d;
    var line, k := LineOf(i, e, f), Key(i, f) + "=";
    assert line[5] == d[0] && k[5] == d[0] && CountLine(n)[5] == 'c' && (COUNT + "=")[5] == 'c';
    SameChar(line, COUNT + "=", 5);
    SameChar(CountLine(n), k, 5);
    assert CountLine(n)[0..|COUNT + "="|] == COUNT + "=";
  }

  // ----- Round trip -----

  const TWO31 := 0x8000_0000
  const TWO64 := 0x1_0000_0000_0000_0000

  /** An entry whose three lines fit the line buffer and hold no line break. */
  predicate Fits(i: nat, e: Entry) {
    && Plain(e.name) && Plain(e.sha256) && e.size < TWO64
    && |LineOf(i, e, Name)| <= 510 && |LineOf(i, e, Size)| <= 510 && |LineOf(i, e, Hash)| <= 510
  }

  predicate Printable(bios: seq<Entry>) {
    |bios| < TWO64 && forall i: nat :: i < |bios| ==> Fits(i, bios[i])
  }

  /** Whole lines, none of which is about BIOS files. */
  predicate OtherLines(t: string) {
    Foreign(t, "bios_")
  }

  lemma OtherLinesForeign(t: string, k: string)
    requires OtherLines(t) && |k| >= 5 && k[..5] == "bios_"
    ensures Foreign(t, k)
  {
    forall q: nat | q <= |t|
      ensures !MatchAt(t, k, q)
    {
      if StartsAt(t, k, q) {
        assert t[q..q + 5] == t[q..q + |k|][..5];
        assert StartsAt(t, "bios_", q);
        assert !MatchAt(t, "bios_", q);
      }
    }
  }

  lemma {:induction false} CTextPlain(s: string)
    requires Plain(s)
    ensures CText(s) == s
  {
    if |s| > 0 {
      assert s[0] in s && forall c <- s[1..] :: c in s;
      CTextPlain(s[1..]);
    }
  }

  lemma DigitsPlain(s: string)
    requires forall c <- s :: IsDigit(c)
    ensures Plain(s)
  {
  }

  lemma PlainConcat(a: string, b: string)
    requires Plain(a) && Plain(b)
    ensures Plain(a + b)
  {
  }

  lemma LinePlain(i: nat, e: Entry, f: Field)
    requires Plain(e.name) && Plain(e.sha256)
    ensures Plain(LineOf(i, e, f))
  {
    hide Plain, Dec, Key, CText;
    KeyPlain(i, f);
    CTextPlain(e.name);
    CTextPlain(e.sha256);
    DigitsPlain(Dec(e.size));
    assert CText(e.name) == e.name && CText(e.sha256) == e.sha256;
    PlainConcat(Key(i, f) + "=", FieldValue(e, f));
  }

  lemma CountPlain(n: nat)
    ensures Plain(CountLine(n))
  {
    hide Plain, Dec;
    KeyPlain(0, Name);
    DigitsPlain(Dec(n));
    PlainConcat(COUNT + "=", Dec(n));
  }

  function Ten(k: nat): nat {
    if k == 0 then 1 else 10 * Ten(k - 1)
  }

  lemma {:induction false} DecLength(n: nat, k: nat)
    requires n < Ten(k) && k > 0
    ensures |Dec(n)| <= k
    decreases k
  {
    if n >= 10 {
      DecLength(n / 10, k - 1);
    }
  }

  lemma CountFits(n: nat)
    requires n < TWO64
    ensures |CountLine(n)| <= 510
  {
    assert Ten(20) >= TWO64 by {
      assert Ten(4) == 10000;
      assert Ten(8) == 1_0000_0000;
      assert Ten(12) == 1_0000_0000_0000;
      assert Ten(16) == 1_0000_0000_0000_0000;
    }
    DecLength(n, 20);
  }

  lemma {:induction false} TextAppend(xs: seq<string>, ys: seq<string>)
    ensures Text(xs + ys) == Text(xs) + Text(ys)
    decreases |xs|
  {
    if |xs| == 0 {
      assert xs + ys == ys;
    } else {
      assert (xs + ys)[1..] == xs[1..] + ys;
      TextAppend(xs[1..], ys);
    }
  }

  lemma TextThree(a: string, b: string, c: string)
    ensures Text([a, b, c]) == a + "\n" + (b + "\n") + (c + "\n") && Text([a]) == a + "\n"
  {
    assert [a, b, c][1..] == [b, c] && [b, c][1..] == [c] && [c][1..] == [];
    assert Text([]) == "" && Text([c]) == c + "\n" + "";
    assert [a][1..] == [];
  }

  /** Lines that fit are printed whole. */
  lemma {:induction false} PrintedLines(bios: seq<Entry>, n: nat)
    requires Printable(bios) && n <= |bios|
    ensures PrintUpTo(bios, n) == Text(LinesUpTo(bios, n))
    decreases n
  {
    hide LineOf, CountLine, Text, Plain;
    if n == 0 {
      CountFits(|bios|);
      TextThree(CountLine(|bios|), "", "");
    } else {
      PrintedLines(bios, n - 1);
      var e := bios[n - 1];
      assert Fits(n - 1, e);
      TextThree(LineOf(n - 1, e, Name), LineOf(n - 1, e, Size), LineOf(n - 1, e, Hash));
      TextAppend(LinesUpTo(bios, n - 1), [LineOf(n - 1, e, Name), LineOf(n - 1, e, Size), LineOf(n - 1, e, Hash)]);
    }
  }

  lemma FitsPlain(i: nat, e: Entry)
    requires Fits(i, e)
    ensures Plain(e.name) && Plain(e.sha256)
  {
  }

  lemma AllPlain(bios: seq<Entry>)
    requires Printable(bios)
    ensures forall l <- LinesUpTo(bios, |bios|) :: Plain(l)
  {
    hide Plain, LineOf, CountLine, LinesUpTo, Fits;
    var lines := LinesUpTo(bios, |bios|);
    forall j | 0 <= j < |lines|
      ensures Plain(lines[j])
    {
      if j == 0 {
        CountPlain(|bios|);
        FirstIsCount(bios);
      } else {
        var i, f := LineIs(bios, j);
        LinesAt(bios, |bios|, i, f);
        FitsPlain(i, bios[i]);
        LinePlain(i, bios[i], f);
      }
    }
  }

  lemma FirstIsCount(bios: seq<Entry>)
    ensures LinesUpTo(bios, |bios|)[0] == CountLine(|bios|)
  {
    if |bios| > 0 {
      LinesAt(bios, |bios|, 0, Name);
    }
  }

  /** Only line j of the manifest answers to the key of its field. */
  lemma OnlyLine(bios: seq<Entry>, i: nat, f: Field, j: nat)
    requires i < |bios| && j < 1 + 3 * |bios|
    ensures StartsAt(LinesUpTo(bios, |bios|)[j], Key(i, f) + "=", 0) <==> j == 1 + 3 * i + FieldIndex(f)
  {
    hide LineOf, CountLine, Key, StartsAt;
    if j == 0 {
      FirstIsCount(bios);
      CountOnLine(i, f, bios[i], |bios|);
    } else {
      var i', f' := LineIs(bios, j);
      LinesAt(bios, |bios|, i', f');
      KeyOnLine(i, f, i', f', bios[i']);
    }
  }

  lemma FieldRead(t: string, bios: seq<Entry>, u: string, i: nat, f: Field)
    requires OtherLines(t) && Printable(bios) && i < |bios|
    ensures Value(t + Printed(bios) + u, Key(i, f) + "=") == FieldValue(bios[i], f)
  {
    hide LineOf, Key, StartsAt, Plain, Foreign, Value, FieldValue, LinesUpTo, PrintUpTo;
    var k, lines, j := Key(i, f) + "=", LinesUpTo(bios, |bios|), 1 + 3 * i + FieldIndex(f);
    PrintedLines(bios, |bios|);
    AllPlain(bios);
    KeyPlain(i, f);
    KeyHead(i, f);
    OtherLinesForeign(t, k);
    forall j' | 0 <= j' <= j
      ensures StartsAt(lines[j'], k, 0) <==> j' == j
    {
      OnlyLine(bios, i, f, j');
    }
    Lookup(t, lines, u, k, j);
    LinesAt(bios, |bios|, i, f);
    LineRest(i, bios[i], f);
  }

  lemma KeyHead(i: nat, f: Field)
    ensures var k := Key(i, f) + "="; |k| >= 5 && k[..5] == "bios_"
    ensures var k := COUNT + "="; |k| >= 5 && k[..5] == "bios_"
  {
  }

  lemma LineRest(i: nat, e: Entry, f: Field)
    ensures LineOf(i, e, f)[|Key(i, f) + "="|..] == FieldValue(e, f)
  {
    hide Key, FieldValue;
  }

  /** The count is read whatever the entries are. */
  lemma CountRead(t: string, bios: seq<Entry>, u: string)
    requires OtherLines(t) && |bios| < TWO64
    ensures Value(t + Printed(bios) + u, COUNT + "=") == Dec(|bios|)
  {
    hide StartsAt, Plain, Foreign, Value, PrintUpTo, LineOf, Dec;
    var k, line := COUNT + "=", CountLine(|bios|);
    KeyPlain(0, Name);
    KeyHead(0, Name);
    OtherLinesForeign(t, k);
    CountPlain(|bios|);
    CountOnLine(0, Name, Entry("", 0, ""), |bios|);
    var rest := CountFirst(bios, |bios|);
    Hit(t, line, rest + u, k);
    assert t + line + "\n" + (rest + u) == t + Printed(bios) + u;
  }

  lemma {:induction false} CountFirst(bios: seq<Entry>, n: nat) returns (rest: string)
    requires |bios| < TWO64 && n <= |bios|
    ensures PrintUpTo(bios, n) == CountLine(|bios|) + "\n" + rest
    decreases n
  {
    hide PrintEntry, CountLine;
    if n == 0 {
      CountFits(|bios|);
      rest := "";
    } else {
      var r := CountFirst(bios, n - 1);
      rest := r + PrintEntry(n - 1, bios[n - 1]);
    }
  }

  lemma EntryRead(t: string, bios: seq<Entry>, u: string, i: nat)
    requires OtherLines(t) && Printable(bios) && i < |bios|
    ensures EntryAt(t + Printed(bios) + u, i) == bios[i]
  {
    hide Value, Key, Printed, CText, Foreign, Plain, Dec, LineOf;
    assert Fits(i, bios[i]);
    FieldRead(t, bios, u, i, Name);
    FieldRead(t, bios, u, i, Size);
    FieldRead(t, bios, u, i, Hash);
    CTextPlain(bios[i].name);
    CTextPlain(bios[i].sha256);
    ScanDec(bios[i].size);
  }

  lemma {:induction false} EntriesRead(t: string, bios: seq<Entry>, u: string, n: nat)
    requires OtherLines(t) && Printable(bios) && n <= |bios|
    ensures Entries(t + Printed(bios) + u, n) == bios[..n]
    decreases n
  {
    hide EntryAt, Printed, Foreign, Fits;
    if n > 0 {
      EntriesRead(t, bios, u, n - 1);
      EntryRead(t, bios, u, n - 1);
    }
  }

  /**
   Parsing what was printed gives the list back, sorted, whatever other lines come before it and
   whatever text at all comes after; from 2^31 entries on std::stoi throws and nothing comes back.
   */
  lemma RoundTrip(t: string, bios: seq<Entry>, u: string)
    requires OtherLines(t) && Printable(bios)
    ensures Parsed(t + Printed(bios) + u) == if |bios| < TWO31 then Sorted(bios) else []
    ensures InOrder(bios) && |bios| < TWO31 ==> Parsed(t + Printed(bios) + u) == bios
  {
    hide Value, Printed, Foreign, Fits, Entries, InOrder, Sorted, CountIn;
    var meta := t + Printed(bios) + u;
    CountRead(t, bios, u);
    CountParsed(meta, |bios|);
    if |bios| < TWO31 {
      EntriesRead(t, bios, u, |bios|);
      assert bios[..|bios|] == bios;
      SortedSorts(bios);
      if InOrder(bios) {
        SortedUnique(Sorted(bios), bios);
      }
    } else {
      NoEntries(meta);
    }
  }

  lemma CountParsed(meta: string, n: nat)
    requires Value(meta, COUNT + "=") == Dec(n)
    ensures Value(meta, COUNT + "=") != "" && CountIn(meta) == if n < TWO31 then n else 0
  {
    hide Value, Dec, Scan;
    ScanDec(n);
  }

  lemma NoEntries(meta: string)
    ensures Sorted(Entries(meta, 0)) == []
  {
  }

  // ----- When the round trip fails -----

  /** Size and hash as a file gives them; and no carriage return in the name. */
  predicate Real(e: Entry) {
    0 < e.size < TWO64 && 0 < |e.sha256| <= 64 && Plain(e.sha256) && '\r' !in e.name
  }

  /** The name has no line break and no NUL, and its line fits the buffer with its line break. */
  predicate NameFits(i: nat, e: Entry) {
    Plain(e.name) && |LineOf(i, e, Name)| <= 510
  }

  lemma KeyShort(i: nat, f: Field)
    requires i < TWO31
    ensures |Key(i, f)| <= 22
  {
    assert Ten(10) >= TWO31 by {
      assert Ten(4) == 10000;
      assert Ten(8) == 1_0000_0000;
    }
    DecLength(i, 10);
  }

  lemma RestFits(i: nat, e: Entry)
    requires i < TWO31 && Real(e)
    ensures |LineOf(i, e, Size)| <= 510 && |LineOf(i, e, Hash)| <= 510
  {
    hide Plain, Key, Dec, CText;
    KeyShort(i, Size);
    KeyShort(i, Hash);
    CTextPlain(e.sha256);
    SizeShort(e.size);
  }

  lemma SizeShort(n: nat)
    requires n < TWO64
    ensures |Dec(n)| <= 20
  {
    assert Ten(20) >= TWO64 by {
      assert Ten(4) == 10000;
      assert Ten(8) == 1_0000_0000;
      assert Ten(12) == 1_0000_0000_0000;
      assert Ten(16) == 1_0000_0000_0000_0000;
    }
    DecLength(n, 20);
  }

  /** The lines an entry becomes: a name line that is cut runs into the size line. */
  function Merged(i: nat, e: Entry): seq<string> {
    if |LineOf(i, e, Name)| <= 510 then [LineOf(i, e, Name), LineOf(i, e, Size), LineOf(i, e, Hash)]
    else [LineOf(i, e, Name)[..511] + LineOf(i, e, Size), LineOf(i, e, Hash)]
  }

  function MergedUpTo(bios: seq<Entry>, n: nat): seq<string>
    requires n <= |bios|
  {
    if n == 0 then [CountLine(|bios|)] else MergedUpTo(bios, n - 1) + Merged(n - 1, bios[n - 1])
  }

  lemma EntryMerged(i: nat, e: Entry)
    requires i < TWO31 && Real(e)
    ensures PrintEntry(i, e) == Text(Merged(i, e))
  {
    hide LineOf, Text, Real;
    RestFits(i, e);
    var a, b, c := LineOf(i, e, Name), LineOf(i, e, Size), LineOf(i, e, Hash);
    if |a| <= 510 {
      TextThree(a, b, c);
    } else {
      assert (a + "\n")[..511] == a[..511];
      TextTwo(a[..511] + b, c);
    }
  }

  lemma TextTwo(a: string, b: string)
    ensures Text([a, b]) == a + "\n" + (b + "\n")
  {
    assert [a, b][1..] == [b] && [b][1..] == [];
    assert Text([]) == "" && Text([b]) == b + "\n" + "";
  }

  lemma {:induction false} MergedPrinted(bios: seq<Entry>, n: nat)
    requires n <= |bios| < TWO31 && forall e <- bios :: Real(e)
    ensures PrintUpTo(bios, n) == Text(MergedUpTo(bios, n))
    decreases n
  {
    hide LineOf, CountLine, Text, PrintEntry, Merged, Real;
    if n == 0 {
      CountFits(|bios|);
      TextThree(CountLine(|bios|), "", "");
    } else {
      MergedPrinted(bios, n - 1);
      assert bios[n - 1] in bios;
      EntryMerged(n - 1, bios[n - 1]);
      TextAppend(MergedUpTo(bios, n - 1), Merged(n - 1, bios[n - 1]));
    }
  }

  lemma TakePlain(s: string, n: nat)
    requires Plain(s) && n <= |s|
    ensures Plain(s[..n]) && Plain(s[n..])
  {
    assert forall c <- s[..n] :: c in s;
    assert forall c <- s[n..] :: c in s;
  }

  lemma CutIs(k: string, v: string, b: string, n: nat)
    requires |k| <= n <= |k| + |v|
    ensures (k + v)[..n] + b == k + (v[..n - |k|] + b)
  {
  }

  /** Any text behind a name's key is a line of that key. */
  lemma KeyedLine(i: nat, f: Field, j: nat, x: string)
    requires Plain(x)
    ensures Plain(Key(j, Name) + "=" + x)
    ensures StartsAt(Key(j, Name) + "=" + x, Key(i, f) + "=", 0) <==> i == j && f == Name
  {
    hide Plain, Key, StartsAt, LineOf, CText;
    KeyPlain(j, Name);
    PlainConcat(Key(j, Name) + "=", x);
    CTextPlain(x);
    LineIsKeyed(j, Entry(x, 0, ""));
    KeyOnLine(i, f, j, Name, Entry(x, 0, ""));
  }

  /** A cut line still answers to its own key only. */
  lemma CutLine(i: nat, f: Field, j: nat, e: Entry)
    requires j < TWO31 && Real(e) && Plain(e.name) && |LineOf(j, e, Name)| > 510
    ensures var l := LineOf(j, e, Name)[..511] + LineOf(j, e, Size);
      Plain(l) && (StartsAt(l, Key(i, f) + "=", 0) <==> i == j && f == Name)
  {
    assert Plain(e.sha256);
    hide Plain, Key, StartsAt, LineOf, CText, Real;
    var k, b := Key(j, Name) + "=", LineOf(j, e, Size);
    LineIsKeyed(j, e);
    CTextPlain(e.name);
    KeyShort(j, Name);
    LinePlain(j, e, Size);
    CutIs(k, e.name, b, 511);
    TakePlain(e.name, 511 - |k|);
    PlainConcat(e.name[..511 - |k|], b);
    KeyedLine(i, f, j, e.name[..511 - |k|] + b);
  }

  lemma LineIsKeyed(i: nat, e: Entry)
    ensures LineOf(i, e, Name) == Key(i, Name) + "=" + CText(e.name)
  {
  }

  lemma MergedForeign(i: nat, j: nat, e: Entry)
    requires j < TWO31 && Real(e) && Plain(e.name) && (i == j ==> |LineOf(j, e, Name)| > 510)
    ensures forall l <- Merged(j, e) :: Plain(l) && !StartsAt(l, Key(i, Size) + "=", 0)
  {
    hide Plain, Key, Dec, StartsAt, LineOf;
    LinePlain(j, e, Name);
    LinePlain(j, e, Size);
    LinePlain(j, e, Hash);
    KeyOnLine(i, Size, j, Name, e);
    KeyOnLine(i, Size, j, Size, e);
    KeyOnLine(i, Size, j, Hash, e);
    if |LineOf(j, e, Name)| > 510 {
      CutLine(i, Size, j, e);
    }
  }

  lemma {:induction false} NoSizeLine(bios: seq<Entry>, n: nat, i: nat)
    requires n <= |bios| < TWO31 && i < |bios| && |LineOf(i, bios[i], Name)| > 510
    requires forall e <- bios :: Real(e) && Plain(e.name)
    ensures forall l <- MergedUpTo(bios, n) :: Plain(l) && !StartsAt(l, Key(i, Size) + "=", 0)
    decreases n
  {
    hide Plain, Key, Dec, StartsAt, LineOf, Merged, CountLine, Real;
    if n == 0 {
      CountPlain(|bios|);
      CountOnLine(i, Size, bios[i], |bios|);
    } else {
      NoSizeLine(bios, n - 1, i);
      assert bios[n - 1] in bios;
      MergedForeign(i, n - 1, bios[n - 1]);
    }
  }

  lemma ForeignConcat(t: string, u: string, k: string)
    requires Foreign(t, k) && Foreign(u, k) && Plain(k) && |k| > 0
    ensures Foreign(t + u, k)
  {
    hide StartsAt, Plain;
    forall q: nat | q <= |t + u|
      ensures !MatchAt(t + u, k, q)
    {
      if q < |t| {
        MatchStays(t, u, k, q);
      } else {
        MatchShifts(t, u, k, q - |t|);
      }
    }
    assert u != "" ==> (t + u)[|t + u| - 1] == u[|u| - 1];
    assert u == "" ==> t + u == t;
  }

  lemma MatchShifts(t: string, u: string, k: string, q: nat)
    requires q <= |u|
    ensures MatchAt(t + u, k, |t| + q) ==> MatchAt(u, k, q)
  {
    if StartsAt(t + u, k, |t| + q) {
      assert (t + u)[|t| + q..|t| + q + |k|] == u[q..q + |k|];
    }
    assert q > 0 ==> (t + u)[|t| + q - 1] == u[q - 1];
  }

  lemma ForeignValue(t: string, k: string)
    requires Foreign(t, k) && |k| > 0
    ensures Value(t, k) == ""
  {
    hide LineStart;
  }

  /** After a name line that was cut, the size of that entry is not found. */
  lemma SizeLost(t: string, bios: seq<Entry>, u: string, i: nat)
    requires OtherLines(t) && OtherLines(u) && i < |bios| < TWO31 && |LineOf(i, bios[i], Name)| > 510
    requires forall e <- bios :: Real(e) && Plain(e.name)
    ensures EntryAt(t + Printed(bios) + u, i).size == 0
  {
    hide Plain, Key, Dec, StartsAt, LineOf, Real, Foreign, MergedUpTo, PrintUpTo, Value;
    var k := Key(i, Size) + "=";
    KeyPlain(i, Size);
    KeyHead(i, Size);
    OtherLinesForeign(t, k);
    OtherLinesForeign(u, k);
    NoSizeLine(bios, |bios|, i);
    MergedPrinted(bios, |bios|);
    ForeignLines(t, MergedUpTo(bios, |bios|), k);
    ForeignConcat(t + Printed(bios), u, k);
    ForeignValue(t + Printed(bios) + u, k);
    assert SkipSpace("") == "" && DigitRun("") == "";
  }

  /** Values hold no line feed, and no NUL if the text holds none. */
  lemma ValueChars(t: string, k: string)
    ensures '\n' !in Value(t, k) && (Unended(t) ==> Unended(Value(t, k)))
  {
    var m := FirstMatch(t, k, 0);
    if m.Some? {
      var p := m.value + |k|;
      var x := t[p..EndOfLine(t, p)];
      assert forall c <- x :: c in t;
      assert forall c <- DropReturn(x) :: c in x;
    }
  }

  /** No end of a C string. */
  predicate Unended(s: string) {
    0 as char !in s
  }

  lemma PlainUnended(s: string)
    requires Plain(s)
    ensures Unended(s)
  {
  }

  lemma UnendedConcat(a: string, b: string)
    ensures Unended(a + b) <==> Unended(a) && Unended(b)
  {
    assert forall c <- a :: c in a + b;
    assert forall c <- b :: c in a + b;
  }

  lemma {:induction false} CTextUnended(s: string)
    ensures Unended(CText(s))
  {
    if |s| > 0 && s[0] != 0 as char {
      CTextUnended(s[1..]);
    }
  }

  lemma PrintsUnended(body: string)
    requires Unended(body)
    ensures Unended(PrintLine(body))
  {
    UnendedConcat(body, "\n");
    assert forall c <- Clip(body + "\n") :: c in body + "\n";
  }

  lemma LineUnended(i: nat, e: Entry, f: Field)
    ensures Unended(PrintLine(LineOf(i, e, f)))
  {
    hide Plain, Unended, CText, Dec, Key, Clip;
    KeyPlain(i, f);
    PlainUnended(Key(i, f) + "=");
    CTextUnended(e.name);
    CTextUnended(e.sha256);
    DigitsPlain(Dec(e.size));
    PlainUnended(Dec(e.size));
    UnendedConcat(Key(i, f) + "=", FieldValue(e, f));
    PrintsUnended(LineOf(i, e, f));
  }

  lemma {:induction false} PrintedUnended(bios: seq<Entry>, n: nat)
    requires n <= |bios|
    ensures Unended(PrintUpTo(bios, n))
    decreases n
  {
    hide Unended, PrintLine, LineOf, CountLine, Plain;
    if n == 0 {
      CountPlain(|bios|);
      PlainUnended(CountLine(|bios|));
      PrintsUnended(CountLine(|bios|));
    } else {
      PrintedUnended(bios, n - 1);
      var i, e := n - 1, bios[n - 1];
      LineUnended(i, e, Name);
      LineUnended(i, e, Size);
      LineUnended(i, e, Hash);
      var a, b, c := PrintLine(LineOf(i, e, Name)), PrintLine(LineOf(i, e, Size)), PrintLine(LineOf(i, e, Hash));
      UnendedConcat(a, b);
      UnendedConcat(a + b, c);
      UnendedConcat(PrintUpTo(bios, n - 1), a + b + c);
    }
  }

  lemma {:induction false} EntriesHave(meta: string, n: nat, i: nat)
    requires i < n
    ensures EntryAt(meta, i) in Entries(meta, n)
    decreases n
  {
    hide EntryAt;
    if i < n - 1 {
      EntriesHave(meta, n - 1, i);
    }
  }

  lemma {:induction false} EntriesAre(meta: string, n: nat, e: Entry) returns (i: nat)
    requires e in Entries(meta, n)
    ensures i < n && e == EntryAt(meta, i)
    decreases n
  {
    hide EntryAt;
    if e == EntryAt(meta, n - 1) {
      i := n - 1;
    } else {
      i := EntriesAre(meta, n - 1, e);
    }
  }

  lemma SameMembers(xs: seq<Entry>, ys: seq<Entry>, e: Entry)
    requires Sorted(xs) == Sorted(ys)
    ensures e in xs <==> e in ys
  {
    hide Sorted, InOrder;
    SortedSorts(xs);
    SortedSorts(ys);
    assert e in xs <==> e in multiset(xs);
    assert e in ys <==> e in multiset(ys);
  }

  /** If the list comes back, its names are free of line feeds and NULs. */
  lemma NamesPlain(meta: string, bios: seq<Entry>, n: nat, e: Entry)
    requires Sorted(Entries(meta, n)) == Sorted(bios) && Unended(meta) && e in bios && '\r' !in e.name
    ensures Plain(e.name)
  {
    hide Value, Sorted, Key;
    SameMembers(Entries(meta, n), bios, e);
    var i := EntriesAre(meta, n, e);
    ValueChars(meta, Key(i, Name) + "=");
  }

  lemma ComesBackFits(t: string, bios: seq<Entry>, u: string)
    requires OtherLines(t) && OtherLines(u) && Unended(t) && Unended(u)
    requires |bios| < TWO31 && (forall e <- bios :: Real(e))
    requires Sorted(Entries(t + Printed(bios) + u, |bios|)) == Sorted(bios)
    ensures forall i: nat :: i < |bios| ==> NameFits(i, bios[i])
  {
    hide Value, PrintUpTo, Foreign, Entries, Sorted, Real, LineOf, Plain, EntryAt, Unended;
    var meta := t + Printed(bios) + u;
    PrintedUnended(bios, |bios|);
    UnendedConcat(t, Printed(bios));
    UnendedConcat(t + Printed(bios), u);
    forall e <- bios
      ensures Plain(e.name)
    {
      RealName(e);
      NamesPlain(meta, bios, |bios|, e);
    }
    forall i: nat | i < |bios|
      ensures NameFits(i, bios[i])
    {
      assert bios[i] in bios;
      if |LineOf(i, bios[i], Name)| > 510 {
        SizeLost(t, bios, u, i);
        EntriesHave(meta, |bios|, i);
        SameMembers(Entries(meta, |bios|), bios, EntryAt(meta, i));
        RealSize(bios);
      }
    }
  }

  /**
   The round trip, exactly: a list of fewer than 2^31 real entries comes back if and only if every name is
   free of line feeds and NULs and its line fits 511 characters.
   */
  lemma RoundTripIff(t: string, bios: seq<Entry>, u: string)
    requires OtherLines(t) && OtherLines(u) && Unended(t) && Unended(u)
    requires |bios| < TWO31 && forall e <- bios :: Real(e)
    ensures Parsed(t + Printed(bios) + u) == Sorted(bios) <==> forall i: nat :: i < |bios| ==> NameFits(i, bios[i])
  {
    hide Value, PrintUpTo, Foreign, Entries, Sorted, CountIn, Real, NameFits, Unended, Fits;
    var meta := t + Printed(bios) + u;
    CountRead(t, bios, u);
    CountParsed(meta, |bios|);
    if Parsed(meta) == Sorted(bios) {
      ComesBackFits(t, bios, u);
    }
    if forall i: nat :: i < |bios| ==> NameFits(i, bios[i]) {
      RealPrintable(bios);
      RoundTrip(t, bios, u);
    }
  }

  lemma RealName(e: Entry)
    requires Real(e)
    ensures '\r' !in e.name
  {
  }

  lemma RealSize(bios: seq<Entry>)
    requires forall e <- bios :: Real(e)
    ensures forall e <- bios :: e.size > 0
  {
  }

  lemma RealPrintable(bios: seq<Entry>)
    requires |bios| < TWO31 && (forall e <- bios :: Real(e)) && forall i: nat :: i < |bios| ==> NameFits(i, bios[i])
    ensures Printable(bios)
  {
    hide LineOf, Plain;
    forall i: nat | i < |bios|
      ensures Fits(i, bios[i])
    {
      assert bios[i] in bios && NameFits(i, bios[i]);
      RestFits(i, bios[i]);
    }
  }

  /** A carriage return before the line break is dropped from the value. */
  lemma HitReturn(t: string, x: string, u: string, k: string)
    requires Foreign(t, k) && Plain(k) && |k| > 0 && Plain(x)
    ensures Value(t + (k + x + "\r") + "\n" + u, k) == x
  {
    hide Plain, Foreign, FirstMatch, EndOfLine;
    var line := k + x + "\r";
    var w := t + line + "\n" + u;
    assert line[0..|k|] == k;
    HitMatches(t, line, u, k);
    PlainLine(k);
    PlainLine(x);
    LineEnds(t, line, u, |t| + |k|);
    assert w[|t| + |k|..|t| + |line|] == x + "\r";
  }

  lemma {:induction false} CTextWhole(s: string)
    requires 0 as char !in s
    ensures CText(s) == s
  {
    if |s| > 0 {
      assert s[0] in s && forall c <- s[1..] :: c in s;
      CTextWhole(s[1..]);
    }
  }

  lemma ReturnLine(x: string)
    requires Plain(x)
    ensures CText(x + "\r") == x + "\r"
  {
    CTextWhole(x + "\r");
  }

  /** One entry, printed. */
  lemma OnePrinted(e: Entry) returns (rest: string)
    requires |LineOf(0, e, Name)| <= 510
    ensures Printed([e]) == CountLine(1) + "\n" + LineOf(0, e, Name) + "\n" + rest
  {
    hide LineOf, CountLine, Clip;
    rest := PrintLine(LineOf(0, e, Size)) + PrintLine(LineOf(0, e, Hash));
    CountFits(1);
    ClipWhole(CountLine(1) + "\n");
    ClipWhole(LineOf(0, e, Name) + "\n");
    assert PrintUpTo([e], 0) == CountLine(1) + "\n";
    assert PrintUpTo([e], 1) == PrintUpTo([e], 0) + PrintEntry(0, e);
  }

  lemma ClipWhole(s: string)
    requires |s| <= 511
    ensures Clip(s) == s
  {
  }

  lemma OneEntry(meta: string)
    ensures Entries(meta, 1) == [EntryAt(meta, 0)]
  {
    hide EntryAt;
    assert Entries(meta, 0) == [];
  }

  /** A carriage return at the end of a name is taken for part of the line break, and lost. */
  lemma ReturnLost(t: string, x: string, size: nat, hash: string, u: string)
    requires OtherLines(t) && Plain(x) && |x| < 480
    ensures var bios := [Entry(x + "\r", size, hash)];
      EntryAt(t + Printed(bios) + u, 0).name == x && Parsed(t + Printed(bios) + u) != Sorted(bios)
  {
    hide StartsAt, Plain, Foreign, Value, Sorted, Dec, CText, Key;
    var e := Entry(x + "\r", size, hash);
    var meta, k := t + Printed([e]) + u, Key(0, Name) + "=";
    KeyPlain(0, Name);
    KeyHead(0, Name);
    KeyShort(0, Name);
    OtherLinesForeign(t, k);
    CountPlain(1);
    CountOnLine(0, Name, e, 1);
    ForeignMore(t, CountLine(1), k);
    ReturnLine(x);
    assert LineOf(0, e, Name) == k + (x + "\r") == k + x + "\r";
    var rest := OnePrinted(e);
    HitReturn(t + CountLine(1) + "\n", x, rest + u, k);
    assert t + CountLine(1) + "\n" + (k + x + "\r") + "\n" + (rest + u) == meta;
    CountRead(t, [e], u);
    CountParsed(meta, 1);
    OneEntry(meta);
    if Parsed(meta) == Sorted([e]) {
      SameMembers([EntryAt(meta, 0)], [e], e);
    }
  }

  // ----- Manifests of files -----

  /** A file of the BIOS set; `buf` is None for a null pointer. */
  datatype File = File(name: string, buf: Option<seq<bv8>>)

  /** std::tolower in the C locale. */
  function LowerChar(c: char): char {
    if 'A' <= c <= 'Z' then c - 'A' + 'a' else c
  }

  function Lower(s: string): string {
    if |s| == 0 then "" else [LowerChar(s[0])] + Lower(s[1..])
  }

  /** Firmware that games write to. */
  predicate Mutable(name: string) {
    Lower(name) == "firmware.bin" || Lower(name) == "dc_flash.bin"
  }

  predicate Listed(f: File) {
    f.buf.Some? && |f.buf.value| > 0 && !Mutable(f.name)
  }

  type Sha = seq<bv8> -> string

  function EntryOf(f: File, sha: Sha): Entry
    requires f.buf.Some?
  {
    Entry(f.name, |f.buf.value|, sha(f.buf.value))
  }

  function EntriesOf(files: seq<File>, sha: Sha): seq<Entry> {
    if |files| == 0 then []
    else EntriesOf(files[..|files| - 1], sha)
         + if Listed(files[|files| - 1]) then [EntryOf(files[|files| - 1], sha)] else []
  }

  /** jsst_bios_manifest_from_mfs, with SHA-256 a parameter. */
  method ManifestFromFiles(files: seq<File>, sha: Sha) returns (out: seq<Entry>)
    ensures out == Sorted(EntriesOf(files, sha))
  {
    hide Mutable;
    out := [];
    for i := 0 to |files|
      invariant out == EntriesOf(files[..i], sha)
    {
      var file := files[i];
      assert files[..i + 1][..i] == files[..i];
      if file.buf.Some? && |file.buf.value| > 0 && !Mutable(file.name) {
        out := out + [EntryOf(file, sha)];
      }
    }
    assert files[..|files|] == files;
    out := Sorted(out);
  }

  lemma {:induction false} EntriesAppend(xs: seq<File>, ys: seq<File>, sha: Sha)
    ensures EntriesOf(xs + ys, sha) == EntriesOf(xs, sha) + EntriesOf(ys, sha)
    decreases |ys|
  {
    hide Listed;
    if |ys| == 0 {
      assert xs + ys == xs;
    } else {
      var n := |ys| - 1;
      assert (xs + ys)[..|xs + ys| - 1] == xs + ys[..n];
      EntriesAppend(xs, ys[..n], sha);
    }
  }

  lemma Without(files: seq<File>, i: nat)
    requires i < |files|
    ensures multiset(files[..i] + files[i + 1..]) == multiset(files) - multiset{files[i]}
  {
    assert files == files[..i] + [files[i]] + files[i + 1..];
  }

  lemma EntriesWithout(files: seq<File>, i: nat, sha: Sha)
    requires i < |files|
    ensures multiset(EntriesOf(files, sha)) ==
      multiset(EntriesOf(files[..i] + files[i + 1..], sha)) + multiset(EntriesOf([files[i]], sha))
  {
    hide Listed, EntriesOf;
    assert files == files[..i] + [files[i]] + files[i + 1..];
    EntriesAppend(files[..i] + [files[i]], files[i + 1..], sha);
    EntriesAppend(files[..i], [files[i]], sha);
    EntriesAppend(files[..i], files[i + 1..], sha);
  }

  /** The order of the files in the set does not matter. */
  lemma {:induction false} OrderIrrelevant(xs: seq<File>, ys: seq<File>, sha: Sha)
    requires multiset(xs) == multiset(ys)
    ensures multiset(EntriesOf(xs, sha)) == multiset(EntriesOf(ys, sha))
    decreases |xs|
  {
    hide Listed, EntriesOf;
    assert |multiset(xs)| == |multiset(ys)|;
    if |xs| == 0 {
      assert xs == ys;
    } else {
      assert xs[0] in multiset(ys);
      var i :| 0 <= i < |ys| && ys[i] == xs[0];
      Without(xs, 0);
      Without(ys, i);
      OrderIrrelevant(xs[..0] + xs[1..], ys[..i] + ys[i + 1..], sha);
      EntriesWithout(xs, 0, sha);
      EntriesWithout(ys, i, sha);
    }
  }

  /** Nor does any change to a file that games write to. */
  lemma MutableIrrelevant(files: seq<File>, i: nat, f: File, sha: Sha)
    requires i < |files| && Mutable(files[i].name) && Mutable(f.name)
    ensures EntriesOf(files[i := f], sha) == EntriesOf(files, sha)
  {
    hide Mutable, EntriesOf;
    assert files == files[..i] + [files[i]] + files[i + 1..];
    assert files[i := f] == files[..i] + [f] + files[i + 1..];
    EntriesAppend(files[..i] + [files[i]], files[i + 1..], sha);
    EntriesAppend(files[..i] + [f], files[i + 1..], sha);
    EntriesAppend(files[..i], [files[i]], sha);
    EntriesAppend(files[..i], [f], sha);
    Unlisted(files[i], sha);
    Unlisted(f, sha);
  }

  lemma Unlisted(f: File, sha: Sha)
    requires Mutable(f.name)
    ensures EntriesOf([f], sha) == []
  {
    hide Mutable;
    assert [f][..0] == [];
  }

  // ----- The warning -----

  datatype Difference = Difference(saved: Option<Entry>, current: Option<Entry>)

  function At(es: seq<Entry>, i: nat): Option<Entry> {
    if i < |es| then Some(es[i]) else None
  }

  /** i is the first place where the two lists differ, and d what is there. */
  predicate FirstDifference(xs: seq<Entry>, ys: seq<Entry>, i: nat, d: Difference) {
    && (forall j: nat :: j < i ==> At(xs, j) == At(ys, j))
    && d == Difference(At(xs, i), At(ys, i)) && At(xs, i) != At(ys, i)
  }

  method SameManifest(a: seq<Entry>, b: seq<Entry>) returns (same: bool)
    ensures same == (a == b)
  {
    if |a| != |b| {
      return false;
    }
    for i := 0 to |a|
      invariant a[..i] == b[..i]
    {
      if a[i].name != b[i].name || a[i].size != b[i].size || a[i].sha256 != b[i].sha256 {
        return false;
      }
    }
    assert a[..|a|] == a && b[..|b|] == b;
    return true;
  }

  /** The longest prefix of at most n characters. */
  function Front(s: string, n: nat): string {
    if |s| <= n then s else s[..n]
  }

  function NameText(e: Option<Entry>): string {
    if e.Some? then CText(e.value.name) else "(none)"
  }

  function HashText(e: Option<Entry>): string {
    if e.Some? && |e.value.sha256| >= 8 then Front(CText(e.value.sha256), 8) else ""
  }

  function Message(saved: nat, current: nat, d: Difference): string {
    "This save state was made with a different BIOS configuration.\n\nSaved BIOS files: " + Dec(saved)
    + "\nCurrent BIOS files: " + Dec(current) + "\n\nFirst difference:\nSaved: " + NameText(d.saved) + " "
    + HashText(d.saved) + "\nCurrent: " + NameText(d.current) + " " + HashText(d.current)
    + "\n\nThe state was loaded, but behavior may differ if the core reads BIOS ROM after restore."
  }

  /** What snprintf leaves of a text in a buffer of `room` characters, its NUL included. */
  function InBuffer(s: string, room: nat): string {
    if room == 0 then "" else Front(s, room - 1)
  }

  /** jsst_make_bios_warning: whether there is one, and its text, in a buffer of `room` characters. */
  method MakeWarning(meta: string, files: seq<File>, sha: Sha, room: nat)
    returns (warn: bool, text: string, ghost d: Difference, ghost at: nat)
    ensures warn == Warns(meta, files, sha)
    ensures warn ==> FirstDifference(Parsed(meta), Sorted(EntriesOf(files, sha)), at, d)
    ensures warn ==>
      text == InBuffer(Message(|Parsed(meta)|, |Sorted(EntriesOf(files, sha))|, d), room)
  {
    hide Message;
    hide Value, Parsed, Sorted, EntriesOf, Plain;
    d, at, text := Difference(None, None), 0, "";
    KeyPlain(0, Name);
    var countText := GetVal(meta, COUNT);
    if countText == "" {
      return false, text, d, at;
    }
    var saved := ManifestFromMeta(meta);
    var current := ManifestFromFiles(files, sha);
    var same := SameManifest(saved, current);
    if same {
      return false, text, d, at;
    }
    warn := true;
    var max := if |saved| > |current| then |saved| else |current|;
    for i := 0 to max
      invariant forall j: nat :: j < i ==> At(saved, j) == At(current, j)
    {
      var s, c := At(saved, i), At(current, i);
      if s.None? || c.None? || s.value.name != c.value.name || s.value.size != c.value.size ||
        s.value.sha256 != c.value.sha256 {
        d, at := Difference(s, c), i;
        text := InBuffer(Message(|saved|, |current|, Difference(s, c)), room);
        return;
      }
    }
    SamePlaces(saved, current);
  }

  lemma SamePlaces(xs: seq<Entry>, ys: seq<Entry>)
    requires forall j: nat :: j < |xs| || j < |ys| ==> At(xs, j) == At(ys, j)
    ensures xs == ys
  {
    var n := if |xs| < |ys| then |xs| else |ys|;
    assert n < |xs| || n < |ys| ==> At(xs, n) == At(ys, n);
    assert |xs| == |ys|;
    forall j | 0 <= j < |xs|
      ensures xs[j] == ys[j]
    {
      assert At(xs, j) == At(ys, j);
    }
  }

  ghost predicate Warns(meta: string, files: seq<File>, sha: Sha) {
    Value(meta, COUNT + "=") != "" && Parsed(meta) != Sorted(EntriesOf(files, sha))
  }

  /** Files whose manifest can be printed. */
  ghost predicate PrintableFiles(files: seq<File>, sha: Sha) {
    Printable(Sorted(EntriesOf(files, sha))) && |EntriesOf(files, sha)| < TWO31
  }

  /**
   A state saved with one set of files warns under another exactly when the multisets of (name, size,
   hash) of their listed files differ, whatever else the meta text says.
   */
  lemma WarnsIff(header: string, saved: seq<File>, switches: string, current: seq<File>, sha: Sha)
    requires OtherLines(header) && PrintableFiles(saved, sha)
    ensures var meta := header + Printed(Sorted(EntriesOf(saved, sha))) + switches;
      Warns(meta, current, sha) <==> multiset(EntriesOf(saved, sha)) != multiset(EntriesOf(current, sha))
  {
    hide Value, Printed, Sorted, EntriesOf, Foreign, Parsed, Fits, InOrder, Dec;
    var xs, ys := EntriesOf(saved, sha), EntriesOf(current, sha);
    SortedSorts(xs);
    SortedSorts(ys);
    assert |multiset(Sorted(xs))| == |multiset(xs)|;
    RoundTrip(header, Sorted(xs), switches);
    CountRead(header, Sorted(xs), switches);
    if multiset(xs) == multiset(ys) {
      SortedUnique(Sorted(xs), Sorted(ys));
    }
  }

  /** Under the very files it was saved with, a state warns if and only if some name does not fit. */
  lemma WarnsAtHome(header: string, files: seq<File>, switches: string, sha: Sha)
    requires OtherLines(header) && OtherLines(switches) && Unended(header) && Unended(switches)
    requires |EntriesOf(files, sha)| < TWO31 && forall e <- EntriesOf(files, sha) :: Real(e)
    ensures var bios := Sorted(EntriesOf(files, sha));
      Warns(header + Printed(bios) + switches, files, sha) <==> exists i: nat :: i < |bios| && !NameFits(i, bios[i])
  {
    hide Value, PrintUpTo, Sorted, EntriesOf, Foreign, Parsed, InOrder, Dec, Real, NameFits, Unended;
    var es, bios := EntriesOf(files, sha), Sorted(EntriesOf(files, sha));
    SortedSorts(es);
    assert |multiset(bios)| == |multiset(es)|;
    forall e <- bios
      ensures Real(e)
    {
      assert e in multiset(bios) && e in es;
    }
    RoundTripIff(header, bios, switches);
    CountRead(header, bios, switches);
    SortedUnique(Sorted(bios), bios) by { SortedSorts(bios); }
  }

  /** %d */
  function IntText(n: int): string {
    if n < 0 then "-" + Dec(-n) else Dec(n)
  }

  /** The lines a save writes before the manifest; `time` is the formatted time of day. */
  function HeaderLines(slot: int, time: string, system: int, major: int, minor: int): seq<string> {
    ["slot=" + IntText(slot), "timestamp=" + time, "system=" + IntText(system),
     "version=" + IntText(major) + "." + IntText(minor)]
  }

  lemma IntPlain(n: int)
    ensures Plain(IntText(n))
  {
    hide Dec, Plain;
    DigitsPlain(Dec(if n < 0 then -n else n));
    MinusPlain();
    if n < 0 {
      PlainConcat("-", Dec(-n));
    }
  }

  lemma MinusPlain()
    ensures Plain("-") && Plain(".") && Plain("slot=") && Plain("timestamp=") && Plain("system=") && Plain("version=")
  {
  }

  lemma NotBios(line: string)
    requires |line| > 0 && line[0] != 'b'
    ensures !StartsAt(line, "bios_", 0)
  {
    SameChar(line, "bios_", 0);
  }

  lemma {:induction false} ForeignLines(t: string, lines: seq<string>, k: string)
    requires Foreign(t, k) && Plain(k) && |k| > 0
    requires forall l <- lines :: Plain(l) && !StartsAt(l, k, 0)
    ensures Foreign(t + Text(lines), k)
    decreases |lines|
  {
    hide Foreign, StartsAt, Plain;
    if |lines| == 0 {
      assert t + Text(lines) == t;
    } else {
      assert lines[0] in lines && forall l <- lines[1..] :: l in lines;
      ForeignMore(t, lines[0], k);
      ForeignLines(t + lines[0] + "\n", lines[1..], k);
      assert t + Text(lines) == t + lines[0] + "\n" + Text(lines[1..]);
    }
  }

  lemma EmptyForeign()
    ensures Foreign("", "bios_") && Plain("bios_")
  {
  }

  /** The header of a save is other lines in the sense of RoundTrip and WarnsIff. */
  lemma HeaderIsOther(slot: int, time: string, system: int, major: int, minor: int)
    requires Plain(time)
    ensures OtherLines(Text(HeaderLines(slot, time, system, major, minor)))
  {
    hide Plain, Foreign, StartsAt, IntText;
    EmptyForeign();
    MinusPlain();
    IntPlain(slot);
    IntPlain(system);
    IntPlain(major);
    IntPlain(minor);
    PlainConcat("slot=", IntText(slot));
    PlainConcat("timestamp=", time);
    PlainConcat("system=", IntText(system));
    PlainConcat("version=", IntText(major));
    PlainConcat("version=" + IntText(major), ".");
    PlainConcat("version=" + IntText(major) + ".", IntText(minor));
    var lines := HeaderLines(slot, time, system, major, minor);
    forall l | l in lines
      ensures Plain(l) && !StartsAt(l, "bios_", 0)
    {
      NotBios(l);
    }
    ForeignLines("", lines, "bios_");
    assert "" + Text(lines) == Text(lines);
  }
}
