/** The JavaScript string operations the storefront relies on: `trim`,
    the digit regular expressions, `split(...).pop()`, `split(...)[1]` and
    `String(n)` for integers. */
module Strings {
  import opened Outcomes

  /** The code points `String.prototype.trim` removes: the WhiteSpace and
      LineTerminator productions of ECMA-262 (sections 12.2 and 12.3),
      including every Unicode Space_Separator. */
  predicate IsTrimmable(c: char) {
    var n := c as int;
    n == 0x09 || n == 0x0A || n == 0x0B || n == 0x0C || n == 0x0D
    || n == 0x20 || n == 0xA0 || n == 0x1680 || (0x2000 <= n <= 0x200A)
    || n == 0x2028 || n == 0x2029 || n == 0x202F || n == 0x205F
    || n == 0x3000 || n == 0xFEFF
  }

  predicate AllTrimmable(s: string) {
    forall i :: 0 <= i < |s| ==> IsTrimmable(s[i])
  }

  /** No trimmable character at either end. */
  predicate Unpadded(s: string) {
    s == [] || (!IsTrimmable(s[0]) && !IsTrimmable(s[|s| - 1]))
  }

  /** Drops the leading trimmable characters. */
  function TrimStart(s: string): (r: string)
    ensures |r| <= |s|
    ensures r != [] ==> !IsTrimmable(r[0])
  {
    if s != [] && IsTrimmable(s[0]) then TrimStart(s[1..]) else s
  }

  /** What `TrimStart` keeps is a suffix of `s`, and all it drops is
      trimmable. */
  lemma {:induction false} TrimStartDrops(s: string)
    ensures TrimStart(s) == s[|s| - |TrimStart(s)|..]
    ensures AllTrimmable(s[..|s| - |TrimStart(s)|])
  {
    if s != [] && IsTrimmable(s[0]) {
      var r := TrimStart(s[1..]);
      TrimStartDrops(s[1..]);
      assert s[1..][..|s| - 1 - |r|] == s[1..|s| - |r|];
      assert s[1..][|s| - 1 - |r|..] == s[|s| - |r|..];
    }
  }

  /** Drops the trailing trimmable characters. */
  function TrimEnd(s: string): (r: string)
    ensures |r| <= |s|
    ensures r != [] ==> !IsTrimmable(r[|r| - 1])
  {
    if s != [] && IsTrimmable(s[|s| - 1]) then TrimEnd(s[..|s| - 1]) else s
  }

  /** What `TrimEnd` keeps is a prefix of `s`, and all it drops is
      trimmable. */
  lemma {:induction false} TrimEndDrops(s: string)
    ensures TrimEnd(s) == s[..|TrimEnd(s)|]
    ensures AllTrimmable(s[|TrimEnd(s)|..])
  {
    if s != [] && IsTrimmable(s[|s| - 1]) {
      var r := TrimEnd(s[..|s| - 1]);
      TrimEndDrops(s[..|s| - 1]);
      assert s[..|s| - 1][|r|..] == s[|r|..|s| - 1];
      assert s[..|s| - 1][..|r|] == s[..|r|];
    }
  }

  /** `s.trim()`: removes trimmable characters from both ends. */
  function Trim(s: string): (r: string)
    ensures |r| <= |s| && Unpadded(r)
  {
    var t := TrimStart(s);
    TrimEndDrops(t);
    TrimEnd(t)
  }

  /** What `Trim` keeps is an infix of `s`, and all it drops is trimmable. */
  lemma TrimInfix(s: string)
    ensures var k := |s| - |TrimStart(s)|;
      k + |Trim(s)| <= |s| && Trim(s) == s[k..k + |Trim(s)|]
      && AllTrimmable(s[..k]) && AllTrimmable(s[k + |Trim(s)|..])
  {
    var t := TrimStart(s);
    var r := TrimEnd(t);
    var k := |s| - |t|;
    TrimStartDrops(s);
    TrimEndDrops(t);
    assert t[|r|..] == s[k + |r|..];
  }

  /** `!s.trim()`: the string is blank after trimming, which is exactly
      when every character of it is trimmable. */
  predicate IsBlank(s: string): (b: bool)
    ensures b <==> AllTrimmable(s)
  {
    TrimEmptyIffAllTrimmable(s);
    Trim(s) == []
  }

  /** The trim is empty exactly when every character is trimmable. */
  lemma TrimEmptyIffAllTrimmable(s: string)
    ensures Trim(s) == [] <==> AllTrimmable(s)
  {
    var t := TrimStart(s);
    TrimInfix(s);
    if Trim(s) == [] {
      assert s[..|s|] == s;
    } else {
      var k := |s| - |t|;
      assert Trim(s)[0] == s[k];
    }
  }

  /** A string without trimmable ends is its own trim. */
  lemma {:induction false} TrimUnpadded(s: string)
    requires Unpadded(s)
    ensures Trim(s) == s
  {
    assert TrimStart(s) == s;
    assert TrimEnd(s) == s;
  }

  /** Trimming is idempotent, and a string is its own trim exactly when it
      has no trimmable ends. */
  lemma TrimIdempotent(s: string)
    ensures Trim(Trim(s)) == Trim(s)
    ensures Trim(s) == s <==> Unpadded(s)
  {
    TrimUnpadded(Trim(s));
    if Unpadded(s) {
      TrimUnpadded(s);
    }
  }

  /** A `string | null` used as a condition: true for a non-empty
      string only. */
  predicate Truthy(s: Option<string>) {
    s.Some? && s.value != []
  }

  /** A single ASCII decimal digit: what `\d` matches in a JavaScript
      regular expression without the `u` and `i` flags. */
  predicate IsDigit(c: char) {
    '0' <= c <= '9'
  }

  predicate AllDigits(s: string) {
    forall i :: 0 <= i < |s| ==> IsDigit(s[i])
  }

  /** `/^\d{n}$/.test(s)`: exactly `n` ASCII digits and nothing else
      (without the `m` flag, `$` matches only at the end of the input). */
  predicate IsDigitString(s: string, n: nat) {
    |s| == n && AllDigits(s)
  }

  /** `s.split(sep).pop()` for a one-character separator: the text after
      the last `sep`, or all of `s` when it has none. */
  function AfterLast(s: string, sep: char): (r: string)
    ensures |r| <= |s| && r == s[|s| - |r|..]
    ensures sep !in r
    ensures |r| < |s| ==> s[|s| - |r| - 1] == sep
  {
    if s == [] then []
    else if s[|s| - 1] == sep then []
    else
      var r := AfterLast(s[..|s| - 1], sep);
      assert s[..|s| - 1][|s| - 1 - |r|..] + [s[|s| - 1]] == s[|s| - 1 - |r|..];
      r + [s[|s| - 1]]
  }

  /** Whatever precedes the last separator, `AfterLast` returns the text
      after it. */
  lemma {:induction false} AfterLastOfJoin(p: string, sep: char, e: string)
    requires sep !in e
    ensures AfterLast(p + [sep] + e, sep) == e
  {
    if e != [] {
      var last := e[|e| - 1];
      assert (p + [sep] + e)[..|p + [sep] + e| - 1] == p + [sep] + e[..|e| - 1];
      AfterLastOfJoin(p, sep, e[..|e| - 1]);
      assert e[..|e| - 1] + [last] == e;
    } else {
      assert p + [sep] + e == p + [sep];
    }
  }

  /** `pat` occurs in `s` starting at index `k`. */
  predicate OccursAt(s: string, pat: string, k: int) {
    0 <= k && k + |pat| <= |s| && s[k..k + |pat|] == pat
  }

  /** The first occurrence of `pat` in `s` at or after `from`, as
      `String.prototype.split` finds separators. */
  function IndexOf(s: string, pat: string, from: nat): (r: Option<nat>)
    decreases |s| - from
    ensures r.Some? ==> from <= r.value && OccursAt(s, pat, r.value)
    ensures r.Some? ==> forall j :: from <= j < r.value ==> !OccursAt(s, pat, j)
    ensures r.None? ==> forall j :: from <= j ==> !OccursAt(s, pat, j)
  {
    if from + |pat| > |s| then None
    else if s[from..from + |pat|] == pat then Some(from)
    else IndexOf(s, pat, from + 1)
  }

  /** `pat` occurs at `k` and nowhere before it. */
  predicate FirstAt(s: string, pat: string, k: int) {
    OccursAt(s, pat, k) && forall j :: 0 <= j < k ==> !OccursAt(s, pat, j)
  }

  /** A part of a split that starts at `from` ends at `e`: at the next
      occurrence of `pat` at or after `from`, or at the end of `s` when
      there is none. */
  predicate PartEnd(s: string, pat: string, from: int, e: int) {
    0 <= from <= e <= |s|
    && (e == |s| || OccursAt(s, pat, e))
    && forall j :: from <= j < e ==> !OccursAt(s, pat, j)
  }

  /** `s.split(sep)[1]` for a non-empty separator: the text between the
      first occurrence of `sep` and the next one (or the end); `None` when
      `sep` does not occur, that is when the split has fewer than two
      parts. */
  function SecondPart(s: string, sep: string): (r: Option<string>)
    requires sep != []
    ensures r.None? <==> forall j :: !OccursAt(s, sep, j)
    ensures r.Some? ==> forall k :: FirstAt(s, sep, k) ==>
      PartEnd(s, sep, k + |sep|, k + |sep| + |r.value|)
      && r.value == s[k + |sep|..k + |sep| + |r.value|]
  {
    match IndexOf(s, sep, 0)
    case None => None
    case Some(k) =>
      var start := k + |sep|;
      var stop := match IndexOf(s, sep, start) case None => |s| case Some(k2) => k2;
      assert PartEnd(s, sep, start, stop);
      assert forall k' :: FirstAt(s, sep, k') ==> k' == k;
      Some(s[start..stop])
  }

  /** An occurrence inside a slice is an occurrence in the whole string. */
  lemma OccursInSlice(s: string, pat: string, a: nat, b: nat, j: nat)
    requires a <= b <= |s| && OccursAt(s[a..b], pat, j)
    ensures OccursAt(s, pat, a + j)
  {
    forall i | 0 <= i < |pat| ensures s[a + j..a + j + |pat|][i] == pat[i] {
      assert s[a..b][j..j + |pat|][i] == pat[i];
    }
  }

  /** The part `SecondPart` returns never contains the separator. */
  lemma SecondPartHasNoSeparator(s: string, sep: string)
    requires sep != [] && SecondPart(s, sep).Some?
    ensures forall j :: !OccursAt(SecondPart(s, sep).value, sep, j)
  {
    var k := IndexOf(s, sep, 0).value;
    var start := k + |sep|;
    var next := IndexOf(s, sep, start);
    var stop := if next.Some? then next.value else |s|;
    var part := SecondPart(s, sep).value;
    assert start <= stop <= |s| && part == s[start..stop];
    forall j | OccursAt(part, sep, j) ensures false {
      OccursInSlice(s, sep, start, stop, j);
    }
  }

  function DigitChar(d: nat): (c: char)
    requires d < 10
    ensures IsDigit(c) && c as int - '0' as int == d
  {
    ('0' as int + d) as char
  }

  /** The decimal digits of a natural number, without leading zeros. */
  function NatDigits(n: nat): (r: string)
    ensures r != [] && AllDigits(r)
    ensures |r| > 1 ==> r[0] != '0'
  {
    if n < 10 then [DigitChar(n)]
    else NatDigits(n / 10) + [DigitChar(n % 10)]
  }

  /** The number a string of decimal digits denotes. */
  function DigitsValue(s: string): nat
    requires AllDigits(s)
  {
    if s == [] then 0
    else DigitsValue(s[..|s| - 1]) * 10 + (s[|s| - 1] as int - '0' as int)
  }

  /** Reading back the digits of `n` gives `n`. */
  lemma {:induction false} DigitsRoundTrip(n: nat)
    ensures DigitsValue(NatDigits(n)) == n
  {
    if n >= 10 {
      var r := NatDigits(n);
      assert r[..|r| - 1] == NatDigits(n / 10);
      DigitsRoundTrip(n / 10);
    }
  }

  /** `String(n)` for an integer `n`: a minus sign for negative values,
      then the decimal digits of the magnitude. */
  function DecimalString(n: int): (r: string)
    ensures r != []
    ensures n >= 0 ==> AllDigits(r) && DigitsValue(r) == n
    ensures n < 0 ==> r[0] == '-' && AllDigits(r[1..]) && DigitsValue(r[1..]) == -n
  {
    DigitsRoundTrip(if n < 0 then -n else n);
    if n < 0 then "-" + NatDigits(-n) else NatDigits(n)
  }
}
