/** Character classes, substring search, the regular-expression building blocks
    and the pieces of Python's str, int and float behaviour that the recipe
    helpers rely on. */
module Text {
  import opened Wrappers

  // ------------------------------------------------------------------
  // Character classes
  // ------------------------------------------------------------------

  /** Python's str.isspace(): the class `\s` of a str pattern and what str.strip() removes. */
  predicate IsSpace(c: char)
  {
    || c == ' '
    || ('\t' <= c <= '\r')
    || ('\U{1C}' <= c <= '\U{1F}')
    || c == '\U{85}' || c == '\U{A0}' || c == '\U{1680}'
    || ('\U{2000}' <= c <= '\U{200A}')
    || c == '\U{2028}' || c == '\U{2029}' || c == '\U{202F}' || c == '\U{205F}'
    || c == '\U{3000}'
  }

  /** The class `[0-9]`. */
  predicate IsAsciiDigit(c: char)
  {
    '0' <= c <= '9'
  }

  /** The class `\d` (and `[0-9０-９]`): ASCII and full-width decimal digits. */
  predicate IsDigit(c: char)
  {
    IsAsciiDigit(c) || ('０' <= c <= '９')
  }

  /** `[0-9]` when `ascii` holds, `\d` otherwise. */
  predicate DigitOf(c: char, ascii: bool)
  {
    if ascii then IsAsciiDigit(c) else IsDigit(c)
  }

  function DigitValue(c: char): (d: nat)
    ensures d < 10
  {
    if IsAsciiDigit(c) then c as int - '0' as int
    else if '０' <= c <= '９' then c as int - '０' as int
    else 0
  }

  predicate IsUpperAscii(c: char)
  {
    'A' <= c <= 'Z'
  }

  // ------------------------------------------------------------------
  // Substrings
  // ------------------------------------------------------------------

  /** Python's `sub in s`. */
  function Contains(s: string, sub: string): bool
    decreases |s|
  {
    if |sub| > |s| then false
    else if s[..|sub|] == sub then true
    else Contains(s[1..], sub)
  }

  /** An occurrence at a known position makes `sub in s` true. */
  lemma {:induction false} ContainsAt(s: string, sub: string, i: nat)
    requires i + |sub| <= |s| && s[i..i + |sub|] == sub
    ensures Contains(s, sub)
    decreases i
  {
    if i > 0 && s[..|sub|] != sub {
      assert s[1..][i - 1..i - 1 + |sub|] == s[i..i + |sub|];
      ContainsAt(s[1..], sub, i - 1);
    }
  }

  /** `sub in s` has a witness position. */
  lemma {:induction false} ContainsWitness(s: string, sub: string) returns (i: nat)
    requires Contains(s, sub)
    ensures i + |sub| <= |s| && s[i..i + |sub|] == sub
    decreases |s|
  {
    if s[..|sub|] == sub {
      i := 0;
    } else {
      var j := ContainsWitness(s[1..], sub);
      assert s[1..][j..j + |sub|] == s[j + 1..j + 1 + |sub|];
      i := j + 1;
    }
  }

  /** A key with a character that never occurs in s is not a substring of s. */
  lemma {:induction false} MissingChar(s: string, sub: string, k: nat)
    requires k < |sub| && sub[k] !in s
    ensures !Contains(s, sub)
    decreases |s|
  {
    if |sub| <= |s| {
      assert s[k] in s;
      assert s[..|sub|][k] == s[k];
      forall c | c in s[1..] ensures c in s {
        var j :| 0 <= j < |s[1..]| && s[1..][j] == c;
        assert s[j + 1] == c;
      }
      MissingChar(s[1..], sub, k);
    }
  }

  /** An occurrence inside a part is an occurrence inside the whole. */
  lemma ContainsInConcat(a: string, b: string, sub: string)
    requires Contains(a, sub) || Contains(b, sub)
    ensures Contains(a + b, sub)
  {
    if Contains(a, sub) {
      var i := ContainsWitness(a, sub);
      assert (a + b)[i..i + |sub|] == a[i..i + |sub|];
      ContainsAt(a + b, sub, i);
    } else {
      var i := ContainsWitness(b, sub);
      assert (a + b)[|a| + i..|a| + i + |sub|] == b[i..i + |sub|];
      ContainsAt(a + b, sub, |a| + i);
    }
  }

  /** Python's `any(k in s for k in keys)`. */
  predicate ContainsAny(s: string, keys: seq<string>)
  {
    exists k :: 0 <= k < |keys| && Contains(s, keys[k])
  }

  /** None of the words occurs in s, shown by one missing character per word:
      `idx[j]` is the position, in `words[j]`, of a character that s lacks. */
  lemma NoneOccur(s: string, words: seq<string>, idx: seq<nat>)
    requires |idx| == |words|
    requires forall j :: 0 <= j < |words| ==> idx[j] < |words[j]| && words[j][idx[j]] !in s
    ensures forall j :: 0 <= j < |words| ==> !Contains(s, words[j])
    ensures !ContainsAny(s, words)
  {
    forall j | 0 <= j < |words| ensures !Contains(s, words[j]) {
      MissingChar(s, words[j], idx[j]);
    }
  }

  /** The keys of a table, in table order. */
  function Keys<V>(table: seq<(string, V)>): (r: seq<string>)
    ensures |r| == |table| && forall j :: 0 <= j < |table| ==> r[j] == table[j].0
  {
    seq(|table|, j requires 0 <= j < |table| => table[j].0)
  }

  /** Index of the first entry, from position `from` on, whose key is a substring
      of s: the `for key in TABLE: if key in s` scan over an ordered dict. */
  function FirstKeyFrom<V>(s: string, table: seq<(string, V)>, from: nat): (r: Option<nat>)
    requires from <= |table|
    ensures r.Some? ==> from <= r.value < |table| && Contains(s, table[r.value].0)
    ensures r.Some? ==> forall j :: from <= j < r.value ==> !Contains(s, table[j].0)
    ensures r.None? <==> forall j :: from <= j < |table| ==> !Contains(s, table[j].0)
    decreases |table| - from
  {
    if from == |table| then None
    else if Contains(s, table[from].0) then Some(from)
    else FirstKeyFrom(s, table, from + 1)
  }

  function FirstKey<V>(s: string, table: seq<(string, V)>): (r: Option<nat>)
    ensures r.Some? ==> r.value < |table| && Contains(s, table[r.value].0)
    ensures r.Some? ==> forall j :: 0 <= j < r.value ==> !Contains(s, table[j].0)
    ensures r.None? <==> forall j :: 0 <= j < |table| ==> !Contains(s, table[j].0)
  {
    FirstKeyFrom(s, table, 0)
  }

  /** The value of the first entry whose key is a substring of s. */
  function ValueOfFirstKey<V>(s: string, table: seq<(string, V)>): (r: Option<V>)
    ensures r.None? <==> FirstKey(s, table).None?
    ensures r.Some? ==> r.value == table[FirstKey(s, table).value].1
  {
    match FirstKey(s, table)
    case Some(k) => Some(table[k].1)
    case None => None
  }

  /** s[i..] starts with p. */
  predicate StartsAt(s: string, i: nat, p: string)
  {
    i + |p| <= |s| && s[i..i + |p|] == p
  }

  // ------------------------------------------------------------------
  // strip, replace, lower, join
  // ------------------------------------------------------------------

  /** Start of the run of whitespace that ends at j. */
  function SpacesBefore(s: string, j: nat): (b: nat)
    requires j <= |s|
    ensures b <= j
    ensures forall k :: b <= k < j ==> IsSpace(s[k])
    ensures b > 0 ==> !IsSpace(s[b - 1])
  {
    if j > 0 && IsSpace(s[j - 1]) then SpacesBefore(s, j - 1) else j
  }

  function TrimStart(s: string): (r: string)
    ensures |r| <= |s|
    ensures r == [] || !IsSpace(r[0])
    ensures (s == [] || !IsSpace(s[0])) ==> r == s
  {
    s[SkipSpaces(s, 0)..]
  }

  function TrimEnd(s: string): (r: string)
    ensures |r| <= |s|
    ensures r == [] || !IsSpace(r[|r| - 1])
    ensures (s == [] || !IsSpace(s[|s| - 1])) ==> r == s
  {
    s[..SpacesBefore(s, |s|)]
  }

  /** Python's str.strip(). */
  function Strip(s: string): (r: string)
    ensures r == [] || (!IsSpace(r[0]) && !IsSpace(r[|r| - 1]))
    ensures (s == [] || (!IsSpace(s[0]) && !IsSpace(s[|s| - 1]))) ==> r == s
  {
    TrimEnd(TrimStart(s))
  }

  predicate AllSpace(s: string)
  {
    forall k :: 0 <= k < |s| ==> IsSpace(s[k])
  }

  /** strip removes only whitespace, and only at the two ends: the text is its
      stripped form between a run of whitespace before and one after. */
  lemma StripIsInfix(s: string)
    ensures exists a, b :: s == a + Strip(s) + b && AllSpace(a) && AllSpace(b)
  {
    var a := TrimStartSplit(s);
    var b := TrimEndSplit(TrimStart(s));
    assert s == a + Strip(s) + b;
  }

  lemma TrimStartSplit(s: string) returns (a: string)
    ensures s == a + TrimStart(s) && AllSpace(a)
  {
    var i := SkipSpaces(s, 0);
    a := s[..i];
    assert s == a + s[i..];
  }

  lemma TrimEndSplit(t: string) returns (b: string)
    ensures t == TrimEnd(t) + b && AllSpace(b)
  {
    var j := SpacesBefore(t, |t|);
    b := t[j..];
    assert t == t[..j] + b;
    forall k | 0 <= k < |b| ensures IsSpace(b[k]) {
      assert b[k] == t[j + k];
    }
  }

  lemma SliceCons(s: string, p: nat, q: nat, rest: string)
    requires p < q <= |s|
    ensures s[p..q] + rest == [s[p]] + (s[p + 1..q] + rest)
  {
    assert s[p..q] == [s[p]] + s[p + 1..q];
  }

  lemma StripUnchanged(s: string)
    requires s != [] && !IsSpace(s[0]) && !IsSpace(s[|s| - 1])
    ensures Strip(s) == s
  {
  }

  lemma ReplaceAbsent(s: string, pat: string, rep: string)
    requires pat != [] && !Contains(s, pat)
    ensures ReplaceAll(s, pat, rep) == s
  {
  }

  /** Python's s.replace(pat, rep) for a non-empty pattern: left to right,
      non-overlapping occurrences. */
  function ReplaceAll(s: string, pat: string, rep: string): (r: string)
    requires pat != []
    ensures !Contains(s, pat) ==> r == s
    decreases |s|
  {
    if |s| < |pat| then s
    else if s[..|pat|] == pat then rep + ReplaceAll(s[|pat|..], pat, rep)
    else [s[0]] + ReplaceAll(s[1..], pat, rep)
  }

  function ToLowerChar(c: char): char
  {
    if IsUpperAscii(c) then (c as int + 32) as char else c
  }

  /** str.lower() on the ASCII letters, the only ones the patterns here can see. */
  function ToLower(s: string): (r: string)
    ensures |r| == |s| && forall k :: 0 <= k < |s| ==> r[k] == ToLowerChar(s[k])
    ensures (forall k :: 0 <= k < |s| ==> !IsUpperAscii(s[k])) ==> r == s
  {
    seq(|s|, k requires 0 <= k < |s| => ToLowerChar(s[k]))
  }

  /** Python's sep.join(parts). */
  function Join(sep: string, parts: seq<string>): string
  {
    if parts == [] then ""
    else if |parts| == 1 then parts[0]
    else parts[0] + sep + Join(sep, parts[1..])
  }

  /** s with every trailing c removed: Python's s.rstrip(c). */
  function RStrip(s: string, c: char): (r: string)
    ensures |r| <= |s| && r == s[..|r|] && (r == [] || r[|r| - 1] != c)
  {
    if s != [] && s[|s| - 1] == c then
      var r := RStrip(s[..|s| - 1], c);
      assert s[..|s| - 1][..|r|] == s[..|r|];
      r
    else s
  }

  // ------------------------------------------------------------------
  // Numbers in text: the regex `\d+(?:\.\d+)?`
  // ------------------------------------------------------------------

  /** End of the run of whitespace starting at i (the greedy `\s*`). */
  function SkipSpaces(s: string, i: nat): (e: nat)
    requires i <= |s|
    ensures i <= e <= |s|
    ensures forall k :: i <= k < e ==> IsSpace(s[k])
    ensures e < |s| ==> !IsSpace(s[e])
    decreases |s| - i
  {
    if i < |s| && IsSpace(s[i]) then SkipSpaces(s, i + 1) else i
  }

  /** End of the run of digits starting at i (the greedy `\d+` or `[0-9]+`). */
  function DigitRunEnd(s: string, i: nat, ascii: bool): (e: nat)
    requires i <= |s|
    ensures i <= e <= |s|
    ensures forall k :: i <= k < e ==> DigitOf(s[k], ascii)
    ensures e < |s| ==> !DigitOf(s[e], ascii)
    decreases |s| - i
  {
    if i < |s| && DigitOf(s[i], ascii) then DigitRunEnd(s, i + 1, ascii) else i
  }

  /** A run of digits that stops at a known position ends there. */
  lemma {:induction false} DigitRunEndAt(s: string, i: nat, j: nat, ascii: bool)
    requires i <= j <= |s|
    requires forall k :: i <= k < j ==> DigitOf(s[k], ascii)
    requires j < |s| ==> !DigitOf(s[j], ascii)
    ensures DigitRunEnd(s, i, ascii) == j
    decreases j - i
  {
    if i < j {
      DigitRunEndAt(s, i + 1, j, ascii);
    }
  }

  /** The number a string of digits denotes (Python's int()/float() on it). */
  function DigitsValue(ds: string): nat
  {
    if ds == [] then 0 else DigitsValue(ds[..|ds| - 1]) * 10 + DigitValue(ds[|ds| - 1])
  }

  function Pow10(n: nat): (p: nat)
    ensures p >= 1
  {
    if n == 0 then 1 else 10 * Pow10(n - 1)
  }

  /** The greedy match of `\d+(?:\.\d+)?` (or `[0-9]+(?:\.[0-9]+)?`) at i:
      where it ends and the decimal number it denotes. */
  function ScanNumber(s: string, i: nat, ascii: bool): (r: Option<(nat, real)>)
    requires i <= |s|
    ensures r.Some? ==> i < r.value.0 <= |s| && r.value.1 >= 0.0
    ensures r.None? <==> (i == |s| || !DigitOf(s[i], ascii))
  {
    var d := DigitRunEnd(s, i, ascii);
    if d == i then None
    else if d + 1 < |s| && s[d] == '.' && DigitOf(s[d + 1], ascii) then
      var f := DigitRunEnd(s, d + 1, ascii);
      Some((f, DigitsValue(s[i..d]) as real + DigitsValue(s[d + 1..f]) as real / Pow10(f - d - 1) as real))
    else
      Some((d, DigitsValue(s[i..d]) as real))
  }

  /** re.search of `[0-9]+(?:\.[0-9]+)?` (ascii) or `\d+(?:\.\d+)?` from position i. */
  function SearchNumber(s: string, i: nat, ascii: bool): (r: Option<real>)
    requires i <= |s|
    ensures r.Some? ==> r.value >= 0.0
    decreases |s| - i
  {
    match ScanNumber(s, i, ascii)
    case Some(m) => Some(m.1)
    case None => if i == |s| then None else SearchNumber(s, i + 1, ascii)
  }

  /** `P\s*(\d+(?:\.\d+)?)` tried at position i: the captured number. */
  function PrefixedNumberAt(s: string, i: nat, p: string): (r: Option<real>)
    requires i <= |s|
    ensures r.Some? ==> StartsAt(s, i, p) && r.value >= 0.0
  {
    if StartsAt(s, i, p) then
      match ScanNumber(s, SkipSpaces(s, i + |p|), false)
      case Some(m) => Some(m.1)
      case None => None
    else None
  }

  /** re.search of `P\s*(\d+(?:\.\d+)?)` from position i: the number captured
      at the leftmost position where the pattern matches. */
  function SearchPrefixedNumber(s: string, p: string, i: nat): (r: Option<real>)
    requires i <= |s|
    ensures r.Some? ==> r.value >= 0.0
    decreases |s| - i
  {
    match PrefixedNumberAt(s, i, p)
    case Some(v) => Some(v)
    case None => if i == |s| then None else SearchPrefixedNumber(s, p, i + 1)
  }

  /** `(\d+(?:\.\d+)?)\s*(?:U1|U2|...)` tried at position i: the captured number. */
  function NumberWithUnitAt(s: string, i: nat, units: seq<string>): (r: Option<real>)
    requires i <= |s|
    ensures r.Some? ==> r.value >= 0.0
  {
    match ScanNumber(s, i, false)
    case None => None
    case Some(m) =>
      var k := SkipSpaces(s, m.0);
      if exists u :: u in units && StartsAt(s, k, u) then Some(m.1) else None
  }

  /** re.search of `(\d+(?:\.\d+)?)\s*(?:U1|U2|...)` from position i. */
  function SearchNumberWithUnit(s: string, units: seq<string>, i: nat): (r: Option<real>)
    requires i <= |s|
    ensures r.Some? ==> r.value >= 0.0
    decreases |s| - i
  {
    match NumberWithUnitAt(s, i, units)
    case Some(v) => Some(v)
    case None => if i == |s| then None else SearchNumberWithUnit(s, units, i + 1)
  }

  /** Without a decimal digit neither search can find anything. */
  lemma {:induction false} NoDigitNoNumber(s: string, p: string, units: seq<string>, i: nat)
    requires i <= |s|
    requires forall k :: i <= k < |s| ==> !IsDigit(s[k])
    ensures SearchPrefixedNumber(s, p, i) == None
    ensures SearchNumberWithUnit(s, units, i) == None
    decreases |s| - i
  {
    if StartsAt(s, i, p) {
      var j := SkipSpaces(s, i + |p|);
      assert j == |s| || !DigitOf(s[j], false);
    }
    if i < |s| {
      NoDigitNoNumber(s, p, units, i + 1);
    }
  }

  /** A prefix whose first character is absent from s never matches. */
  lemma {:induction false} PrefixAbsent(s: string, p: string, i: nat)
    requires i <= |s| && p != [] && p[0] !in s
    ensures SearchPrefixedNumber(s, p, i) == None
    decreases |s| - i
  {
    if i + |p| <= |s| {
      assert s[i..i + |p|][0] == s[i];
      assert s[i] in s;
    }
    if i < |s| {
      PrefixAbsent(s, p, i + 1);
    }
  }

  /** Units whose first characters are all absent from s never match. */
  lemma {:induction false} UnitsAbsent(s: string, units: seq<string>, i: nat)
    requires i <= |s|
    requires forall u :: u in units ==> u != [] && u[0] !in s
    ensures SearchNumberWithUnit(s, units, i) == None
    decreases |s| - i
  {
    var m := ScanNumber(s, i, false);
    if m.Some? {
      var k := SkipSpaces(s, m.value.0);
      forall u | u in units ensures !StartsAt(s, k, u) {
        if k + |u| <= |s| {
          assert s[k..k + |u|][0] == s[k];
          assert s[k] in s;
        }
      }
    }
    if i < |s| {
      UnitsAbsent(s, units, i + 1);
    }
  }

  // ------------------------------------------------------------------
  // Rendering numbers: str(int), f"{x:g}", str(float)
  // ------------------------------------------------------------------

  function DigitChar(d: nat): (c: char)
    requires d < 10
    ensures IsAsciiDigit(c) && DigitValue(c) == d
  {
    ('0' as int + d) as char
  }

  /** Python's str(n) for n >= 0. */
  function NatToString(n: nat): (r: string)
    ensures |r| > 0
    ensures forall k :: 0 <= k < |r| ==> IsAsciiDigit(r[k])
    ensures DigitsValue(r) == n
  {
    if n < 10 then [DigitChar(n)]
    else
      var r := NatToString(n / 10) + [DigitChar(n % 10)];
      assert r[..|r| - 1] == NatToString(n / 10);
      r
  }

  /** Python's str(i). */
  function IntToString(i: int): (r: string)
    ensures r != []
  {
    if i < 0 then "-" + NatToString(-i) else NatToString(i)
  }

  /** x is a multiple of one half. */
  predicate IsHalf(x: real)
  {
    (2.0 * x).Floor as real == 2.0 * x
  }

  /** Zero-padded six-digit rendering of a fraction in millionths. */
  function SixDigits(n: nat): string
  {
    var t := NatToString(n);
    seq(if |t| < 6 then 6 - |t| else 0, _ => '0') + t
  }

  /** The digits of a non-negative x: exact for a multiple of one half,
      otherwise with at most six decimals. */
  function DecimalText(x: real): string
    requires x >= 0.0
  {
    if IsHalf(x) then
      HalvesText((2.0 * x).Floor)
    else
      var m := RoundHalfEven(x * 1000000.0);
      var frac := m % 1000000;
      NatToString(m / 1000000) + (if frac == 0 then "" else "." + RStrip(SixDigits(frac), '0'))
  }

  /** f"{x:g}" for x >= 0. Six significant digits leave no decimal from
      100000 on, where x is rounded half to even to a whole number. */
  function FormatNonNegative(x: real): string
    requires x >= 0.0
  {
    if x >= 100000.0 then NatToString(RoundHalfEven(x)) else DecimalText(x)
  }

  /** Python's f"{x:g}": exact for multiples of one half below 100000 (every
      value the helpers format that way comes from a half-unit rounding) and
      a rounded whole number from 100000 on; other values below 100000 are
      rendered with at most six decimals. */
  function FormatG(x: real): (r: string)
    ensures r != []
  {
    if x < 0.0 then "-" + FormatNonNegative(-x) else FormatNonNegative(x)
  }

  /** Python's str(x) for a float: integral values keep a trailing ".0";
      other values keep their decimals at any size. */
  function FormatRepr(x: real): string
  {
    if x == x.Floor as real then IntToString(x.Floor) + ".0"
    else if x >= 0.0 then DecimalText(x)
    else "-" + DecimalText(-x)
  }

  /** A number of halves written as a decimal: the whole part, then ".5" when odd. */
  function HalvesText(h: nat): (r: string)
    ensures r != [] && IsAsciiDigit(r[0]) && IsAsciiDigit(r[|r| - 1])
    ensures forall k :: 0 <= k < |r| ==> IsAsciiDigit(r[k]) || r[k] == '.'
  {
    var q := NatToString(h / 2);
    var r := q + (if h % 2 == 1 then ".5" else "");
    assert forall k :: 0 <= k < |q| ==> r[k] == q[k];
    r
  }

  /** f"{v:g}" of h half units: the HalvesText below 100000, and from
      there v rounded half to even, since six significant digits leave no
      room for the ".5". */
  function HalvesG(h: nat): (r: string)
    ensures r != [] && IsAsciiDigit(r[0]) && IsAsciiDigit(r[|r| - 1])
    ensures forall k :: 0 <= k < |r| ==> IsAsciiDigit(r[k]) || r[k] == '.'
  {
    if h < 200000 then HalvesText(h) else NatToString(RoundHalfEven(h as real / 2.0))
  }

  /** The value the text HalvesG(h) stands for: h / 2 below 100000, and the
      whole number it was rounded to from there. */
  function HalvesShown(h: nat): (v: real)
    ensures h < 200000 ==> v == h as real / 2.0
    ensures v >= 0.0 && -0.5 <= v - h as real / 2.0 <= 0.5
  {
    if h < 200000 then h as real / 2.0 else RoundHalfEven(h as real / 2.0) as real
  }

  /** f"{v:g}" of every multiple v of one half is its HalvesG. */
  lemma HalvesGIsFormatG(h: nat)
    ensures FormatG(h as real / 2.0) == HalvesG(h)
  {
    var x := h as real / 2.0;
    assert 2.0 * x == h as real;
    assert (2.0 * x).Floor == h;
  }

  /** Below 100000, f"{v:g}" of a multiple of one half is its HalvesText:
      the digits, then ".5" when it is odd. */
  lemma HalvesTextIsFormatG(h: nat)
    requires h < 200000
    ensures FormatG(h as real / 2.0) == HalvesText(h)
  {
    HalvesGIsFormatG(h);
  }

  /** From 100000 on the ".5" is lost: f"{100000.5:g}" is "100000" and
      f"{123456.5:g}" is "123456". */
  lemma BigHalvesLoseTheHalf()
    ensures FormatG(100000.5) == "100000"
    ensures FormatG(123456.5) == "123456"
  {
    assert RoundHalfEven(100000.5) == 100000;
    assert RoundHalfEven(123456.5) == 123456;
    assert NatToString(100000) == "100000" by {
      assert NatToString(1) == "1";
      assert NatToString(10) == "10";
      assert NatToString(100) == "100";
      assert NatToString(1000) == "1000";
      assert NatToString(10000) == "10000";
    }
    assert NatToString(123456) == "123456" by {
      assert NatToString(1) == "1";
      assert NatToString(12) == "12";
      assert NatToString(123) == "123";
      assert NatToString(1234) == "1234";
      assert NatToString(12345) == "12345";
    }
  }

  /** A run of digits ending the string scans as a whole number. */
  lemma ScanWhole(s: string, i: nat)
    requires i < |s|
    requires forall k :: i <= k < |s| ==> IsAsciiDigit(s[k])
    ensures ScanNumber(s, i, false) == Some((|s|, DigitsValue(s[i..]) as real))
  {
    DigitRunEndAt(s, i, |s|, false);
    assert s[i..|s|] == s[i..];
  }

  /** A run of digits followed by ".5" at the end of the string scans as that
      number plus a half. */
  lemma ScanWithHalf(s: string, i: nat, d: nat)
    requires i < d && d + 2 == |s|
    requires forall k :: i <= k < d ==> IsAsciiDigit(s[k])
    requires s[d] == '.' && s[d + 1] == '5'
    ensures ScanNumber(s, i, false) == Some((|s|, DigitsValue(s[i..d]) as real + 0.5))
  {
    DigitRunEndAt(s, i, d, false);
    DigitRunEndAt(s, d + 1, |s|, false);
    assert s[d + 1..|s|] == "5";
    assert DigitsValue("5") == 5 by {
      assert "5"[..0] == "";
    }
    assert Pow10(1) == 10;
  }

  /** Scanning a number of halves, placed after a prefix, gives its value back. */
  lemma ScanHalves(p: string, h: nat)
    ensures ScanNumber(p + HalvesText(h), |p|, false) == Some((|p + HalvesText(h)|, h as real / 2.0))
  {
    var q := NatToString(h / 2);
    var s := p + HalvesText(h);
    var d := |p| + |q|;
    assert s[|p|..d] == q;
    forall k | |p| <= k < d ensures IsAsciiDigit(s[k]) {
      assert s[k] == q[k - |p|];
    }
    if h % 2 == 1 {
      assert s[d] == '.' && s[d + 1] == '5';
      ScanWithHalf(s, |p|, d);
      assert h as real / 2.0 == (h / 2) as real + 0.5;
    } else {
      assert d == |s|;
      ScanWhole(s, |p|);
      assert h as real / 2.0 == (h / 2) as real;
    }
  }
  /** Scanning HalvesG(h) after a prefix gives the value it shows. */
  lemma ScanHalvesG(p: string, h: nat)
    ensures ScanNumber(p + HalvesG(h), |p|, false) == Some((|p + HalvesG(h)|, HalvesShown(h)))
  {
    if h < 200000 {
      ScanHalves(p, h);
    } else {
      var q := HalvesG(h);
      var s := p + q;
      forall k | |p| <= k < |s| ensures IsAsciiDigit(s[k]) {
        assert s[k] == q[k - |p|];
      }
      ScanWhole(s, |p|);
      assert s[|p|..] == q;
    }
  }


  // ------------------------------------------------------------------
  // int(), round()
  // ------------------------------------------------------------------

  /** Python's int() of a float: truncation toward zero. */
  function Trunc(x: real): (r: int)
    ensures x >= 0.0 ==> r == x.Floor
    ensures 0.0 <= (if x >= 0.0 then x - r as real else r as real - x) < 1.0
  {
    if x >= 0.0 then x.Floor else -((-x).Floor)
  }

  /** Python's round(x): to the nearest integer, ties to the even one. */
  function RoundHalfEven(x: real): (r: int)
    ensures r as real - x <= 0.5 && x - r as real <= 0.5
    ensures x - x.Floor as real == 0.5 ==> r % 2 == 0
    ensures x >= 0.0 ==> r >= 0
    ensures x == x.Floor as real ==> r == x.Floor
  {
    var f := x.Floor;
    var d := x - f as real;
    if d < 0.5 then f
    else if d > 0.5 then f + 1
    else if f % 2 == 0 then f
    else f + 1
  }

  /** Python's round(x, 1), taken on the exact value. */
  function Round1(x: real): real
  {
    RoundHalfEven(x * 10.0) as real / 10.0
  }

  /** Rounding to one decimal twice is rounding once. */
  lemma Round1Idempotent(x: real)
    ensures Round1(Round1(x)) == Round1(x)
  {
    var n := RoundHalfEven(x * 10.0);
    assert Round1(x) * 10.0 == n as real;
  }
}
