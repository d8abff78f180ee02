/**
 * The few Python string operations the authorization code relies on:
 * `str.startswith`, `str.split()` (on whitespace), `str.split("-")[0]`,
 * `str.strip`, `int(str)` and `str(int)`.
 */
module Text {
  import opened Wrappers

  predicate StartsWith(s: string, prefix: string) {
    |prefix| <= |s| && s[..|prefix|] == prefix
  }

  /** Python's `str.isspace()` for a single character. */
  predicate IsSpace(c: char) {
    || ('\t' <= c <= '\r')
    || ('\U{1C}' <= c <= ' ')
    || c == '\U{85}' || c == '\U{A0}' || c == '\U{1680}'
    || ('\U{2000}' <= c <= '\U{200A}')
    || c == '\U{2028}' || c == '\U{2029}' || c == '\U{202F}' || c == '\U{205F}' || c == '\U{3000}'
  }

  predicate AllSpace(s: string) {
    forall i :: 0 <= i < |s| ==> IsSpace(s[i])
  }

  predicate NoSpace(s: string) {
    forall i :: 0 <= i < |s| ==> !IsSpace(s[i])
  }

  /** The number of whitespace characters at the start of `s`. */
  function LeadingSpaces(s: string): (k: nat)
    ensures k <= |s| && AllSpace(s[..k])
    ensures k < |s| ==> !IsSpace(s[k])
  {
    if s != [] && IsSpace(s[0]) then 1 + LeadingSpaces(s[1..]) else 0
  }

  /** The longest prefix of `s` without whitespace. */
  function LeadingWord(s: string): (w: string)
    ensures |w| <= |s| && w == s[..|w|] && NoSpace(w)
    ensures |w| < |s| ==> IsSpace(s[|w|])
  {
    if s == [] || IsSpace(s[0]) then [] else [s[0]] + LeadingWord(s[1..])
  }

  /**
   * `s.split()[0]`: the first maximal run of non-whitespace characters.
   * None where Python raises IndexError, i.e. when `s` is all whitespace.
   */
  function FirstWord(s: string): (w: Option<string>)
    ensures w.None? <==> AllSpace(s)
    ensures w.Some? ==>
      var k := LeadingSpaces(s);
      && w.value != [] && NoSpace(w.value)
      && k + |w.value| <= |s| && s[k..k + |w.value|] == w.value
      && (k + |w.value| == |s| || IsSpace(s[k + |w.value|]))
  {
    var k := LeadingSpaces(s);
    if k == |s| then
      assert s[..k] == s;
      None
    else
      var w := LeadingWord(s[k..]);
      assert s[k..][..|w|] == s[k..k + |w|];
      Some(w)
  }

  /** `s.split(c)[0]`: the text before the first occurrence of `c`, or all of `s`. */
  function BeforeFirst(s: string, c: char): (r: string)
    ensures |r| <= |s| && r == s[..|r|] && c !in r
    ensures |r| < |s| <==> c in s
    ensures |r| < |s| ==> s[|r|] == c
  {
    if s == [] then []
    else if s[0] == c then []
    else [s[0]] + BeforeFirst(s[1..], c)
  }

  /**
   * The characters `int()` skips around a number. Non-ASCII whitespace is
   * first turned into a space; of the ASCII characters only space and
   * \t..\r are skipped, so the separators \x1c..\x1f, which `str.isspace()`
   * accepts, are not.
   */
  predicate IsIntSpace(c: char) {
    c == ' ' || ('\t' <= c <= '\r') || (c as int >= 128 && IsSpace(c))
  }

  /** The number of characters `int()` skips at the start of `s`. */
  function IntLeading(s: string): (k: nat)
    ensures k <= |s|
    ensures forall i :: 0 <= i < k ==> IsIntSpace(s[i])
    ensures k < |s| ==> !IsIntSpace(s[k])
  {
    if s != [] && IsIntSpace(s[0]) then 1 + IntLeading(s[1..]) else 0
  }

  /** `s` without the characters `int()` skips at either end. */
  function IntStrip(s: string): (r: string)
    ensures r != [] ==> !IsIntSpace(r[0]) && !IsIntSpace(r[|r| - 1])
  {
    IntStripRight(s[IntLeading(s)..])
  }

  function IntStripRight(s: string): (r: string)
    ensures |r| <= |s| && r == s[..|r|]
    ensures r != [] ==> !IsIntSpace(r[|r| - 1])
    ensures forall i :: |r| <= i < |s| ==> IsIntSpace(s[i])
  {
    if s != [] && IsIntSpace(s[|s| - 1]) then IntStripRight(s[..|s| - 1]) else s
  }

  predicate IsDigit(c: char) {
    '0' <= c <= '9'
  }

  /** Decimal digits, with single underscores allowed between two digits, as Python's `int` accepts. */
  predicate DigitString(s: string) {
    s != [] && forall i :: 0 <= i < |s| ==> DigitOrJoin(s, i)
  }

  /** Position `i` of `s` holds a digit, or an underscore between two digits. */
  predicate DigitOrJoin(s: string, i: int)
    requires 0 <= i < |s|
  {
    IsDigit(s[i]) || (s[i] == '_' && 0 < i < |s| - 1 && IsDigit(s[i - 1]) && IsDigit(s[i + 1]))
  }

  /** The number a digit string denotes; underscores are skipped. */
  function DigitsValue(s: string): nat
  {
    if s == [] then 0
    else if IsDigit(s[|s| - 1]) then DigitsValue(s[..|s| - 1]) * 10 + (s[|s| - 1] as int - '0' as int)
    else DigitsValue(s[..|s| - 1])
  }

  /**
   * Python's default limit on the number of decimal digits `int(s)` reads
   * and `str(n)` writes; past it both raise ValueError.
   */
  const MaxStrDigits: nat := 4300

  /** The number of digit characters in `s`; underscores and signs do not count. */
  function DigitCount(s: string): (k: nat)
    ensures k <= |s|
  {
    if s == [] then 0 else DigitCount(s[..|s| - 1]) + (if IsDigit(s[|s| - 1]) then 1 else 0)
  }

  /**
   * Python's `int(s)` for ASCII digits; None where Python raises ValueError:
   * no digits, a misplaced sign or underscore, any other character, or more
   * than MaxStrDigits digits.
   */
  function ParseInt(s: string): (r: Option<int>)
    ensures r.Some? ==> IntStrip(s) != [] && DigitCount(IntStrip(s)) <= MaxStrDigits
  {
    var t := IntStrip(s);
    if t == [] || DigitCount(t) > MaxStrDigits then None
    else if t[0] == '-' || t[0] == '+' then
      var magnitude: int := DigitsValue(t[1..]);
      if DigitString(t[1..]) then Some(if t[0] == '-' then -magnitude else magnitude)
      else None
    else if DigitString(t) then Some(DigitsValue(t))
    else None
  }

  function DigitChar(d: nat): (c: char)
    requires d < 10
    ensures IsDigit(c) && c as int - '0' as int == d
  {
    (d + '0' as int) as char
  }

  /** `str(n)` for a natural number: no sign, no leading zero. */
  function NatToDecimal(n: nat): (r: string)
    ensures r != [] && (r[0] == '0' ==> n == 0)
    ensures forall i :: 0 <= i < |r| ==> IsDigit(r[i])
    ensures DigitsValue(r) == n
  {
    if n < 10 then [DigitChar(n)]
    else
      var r := NatToDecimal(n / 10) + [DigitChar(n % 10)];
      assert r[..|r| - 1] == NatToDecimal(n / 10);
      r
  }

  /** Python's `str(n)`. */
  function IntToDecimal(n: int): (r: string)
    ensures r != [] && !IsSpace(r[0]) && !IsSpace(r[|r| - 1])
    ensures (r[0] == '-') == (n < 0)
  {
    if n < 0 then "-" + NatToDecimal(-n) else NatToDecimal(n)
  }

  lemma StripNoSpaceEnds(s: string)
    requires s != [] && !IsIntSpace(s[0]) && !IsIntSpace(s[|s| - 1])
    ensures IntStrip(s) == s
  {
    assert IntLeading(s) == 0;
    assert s[0..] == s;
  }

  lemma {:induction false} DigitCountOfDigits(s: string)
    requires forall i :: 0 <= i < |s| ==> IsDigit(s[i])
    ensures DigitCount(s) == |s|
  {
    if s != [] {
      DigitCountOfDigits(s[..|s| - 1]);
    }
  }

  /** `|n|`, whose decimal text `str(n)` writes after an optional sign. */
  function Magnitude(n: int): nat {
    if n < 0 then -n else n
  }

  /**
   * `int(str(n)) == n` for every integer whose decimal text stays within
   * Python's digit limit (beyond it `str(n)` already raises).
   */
  lemma {:induction false} ParseIntRoundTrip(n: int)
    requires |NatToDecimal(Magnitude(n))| <= MaxStrDigits
    ensures ParseInt(IntToDecimal(n)) == Some(n)
  {
    var t := IntToDecimal(n);
    StripNoSpaceEnds(t);
    DigitCountOfDigits(NatToDecimal(Magnitude(n)));
    if n < 0 {
      assert t[1..] == NatToDecimal(-n);
      assert t == ['-'] + t[1..];
      DigitCountAppend(['-'], t[1..]);
    } else {
      assert t == NatToDecimal(n);
    }
  }

  lemma {:induction false} DigitCountAppend(a: string, b: string)
    ensures DigitCount(a + b) == DigitCount(a) + DigitCount(b)
    decreases |b|
  {
    if b == [] {
      assert a + b == a;
    } else {
      assert (a + b)[..|a + b| - 1] == a + b[..|b| - 1];
      DigitCountAppend(a, b[..|b| - 1]);
    }
  }

  /** A run of more than MaxStrDigits ASCII digits is rejected, whatever it denotes. */
  lemma OverlongRejected(s: string)
    requires |s| > MaxStrDigits && forall i :: 0 <= i < |s| ==> IsDigit(s[i])
    ensures ParseInt(s) == None
  {
    StripNoSpaceEnds(s);
    DigitCountOfDigits(s);
  }

  /** `int("\x1c7")` raises: the file separator is whitespace to `str.isspace()` but not to `int()`. */
  lemma SeparatorNotSkipped()
    ensures IsSpace('\U{1C}') && ParseInt("\U{1C}7") == None
  {
    var t := "\U{1C}7";
    StripNoSpaceEnds(t);
    DigitCountOfDigits(t[1..]);
    assert t == [t[0]] + t[1..];
    DigitCountAppend([t[0]], t[1..]);
    assert !DigitOrJoin(t, 0);
  }
}
