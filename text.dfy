/** String helpers shared by the pages: the whitespace trimming of JavaScript's
    `String.prototype.trim`, the lower-casing used by the category filters, and
    the decimal rendering of a millisecond clock value used to build ids. */
module Text {

  /** The characters `trim` removes: the ECMAScript WhiteSpace and
      LineTerminator code points (tab, line feed, vertical tab, form feed,
      carriage return, the space separators, U+2028, U+2029 and U+FEFF). */
  const Whitespace: set<char> := {
    '\U{0009}', '\U{000A}', '\U{000B}', '\U{000C}', '\U{000D}', '\U{0020}',
    '\U{00A0}', '\U{1680}', '\U{2000}', '\U{2001}', '\U{2002}', '\U{2003}',
    '\U{2004}', '\U{2005}', '\U{2006}', '\U{2007}', '\U{2008}', '\U{2009}',
    '\U{200A}', '\U{2028}', '\U{2029}', '\U{202F}', '\U{205F}', '\U{3000}',
    '\U{FEFF}'
  }

  predicate IsWhitespace(c: char) {
    c in Whitespace
  }

  /** The number of whitespace characters `s` starts with. */
  function LeadingWhitespace(s: string): (k: nat)
    ensures k <= |s|
    ensures forall i :: 0 <= i < k ==> IsWhitespace(s[i])
    ensures k < |s| ==> !IsWhitespace(s[k])
  {
    if s != [] && IsWhitespace(s[0]) then 1 + LeadingWhitespace(s[1..]) else 0
  }

  /** The number of whitespace characters `s` ends with. */
  function TrailingWhitespace(s: string): (k: nat)
    ensures k <= |s|
    ensures forall i :: |s| - k <= i < |s| ==> IsWhitespace(s[i])
    ensures k < |s| ==> !IsWhitespace(s[|s| - k - 1])
  {
    if s != [] && IsWhitespace(s[|s| - 1]) then 1 + TrailingWhitespace(s[..|s| - 1]) else 0
  }

  /** `s.trim()`: whitespace cut away on both sides. The result is a
      contiguous slice of `s` with only whitespace before and after it, and
      it neither starts nor ends with whitespace. */
  function Trim(s: string): (r: string)
    ensures var k := LeadingWhitespace(s);
      k + |r| <= |s| && r == s[k..k + |r|] &&
      (forall i :: 0 <= i < k ==> IsWhitespace(s[i])) &&
      (forall i :: k + |r| <= i < |s| ==> IsWhitespace(s[i])) &&
      (r == [] || (!IsWhitespace(r[0]) && !IsWhitespace(r[|r| - 1])))
  {
    var t := s[LeadingWhitespace(s)..];
    TrimSlice(s, t);
    t[..|t| - TrailingWhitespace(t)]
  }

  /** The facts behind `Trim`'s contract, about the slice it returns. */
  lemma TrimSlice(s: string, t: string)
    requires t == s[LeadingWhitespace(s)..]
    ensures var k, r := LeadingWhitespace(s), t[..|t| - TrailingWhitespace(t)];
      k + |r| <= |s| && r == s[k..k + |r|] &&
      (forall i :: k + |r| <= i < |s| ==> IsWhitespace(s[i])) &&
      (r == [] || (!IsWhitespace(r[0]) && !IsWhitespace(r[|r| - 1])))
  {
    var k := LeadingWhitespace(s);
    var e := TrailingWhitespace(t);
    var m := |t| - e;
    var r := t[..m];
    assert r == s[k..k + m];
    forall i | k + m <= i < |s|
      ensures IsWhitespace(s[i])
    {
      assert s[i] == t[i - k];
    }
    if m > 0 {
      assert r[0] == s[k];
      assert r[m - 1] == t[|t| - e - 1];
    }
  }

  /** A string that does not start or end with whitespace is its own trim. */
  lemma TrimOfTrimmed(s: string)
    requires s == [] || (!IsWhitespace(s[0]) && !IsWhitespace(s[|s| - 1]))
    ensures Trim(s) == s
  {
    assert LeadingWhitespace(s) == 0;
  }

  /** `!s.trim()`, the guard the handlers use: nothing but whitespace. */
  predicate IsBlank(s: string) {
    forall i :: 0 <= i < |s| ==> IsWhitespace(s[i])
  }

  /** The guard holds exactly when trimming leaves the empty string. */
  lemma BlankIffTrimEmpty(s: string)
    ensures IsBlank(s) <==> Trim(s) == []
  {
    if Trim(s) != [] {
      assert s[LeadingWhitespace(s)] == Trim(s)[0];
    }
  }

  /** `toLowerCase` on the ASCII letters the category names are made of. */
  function LowerChar(c: char): char {
    if 'A' <= c <= 'Z' then (c as int + 32) as char else c
  }

  function ToLower(s: string): (r: string)
    ensures |r| == |s|
    ensures forall i :: 0 <= i < |s| ==> !('A' <= r[i] <= 'Z')
    ensures forall i :: 0 <= i < |s| && 'A' <= s[i] <= 'Z' ==> r[i] as int == s[i] as int + 32
    ensures forall i :: 0 <= i < |s| && !('A' <= s[i] <= 'Z') ==> r[i] == s[i]
  {
    seq(|s|, i requires 0 <= i < |s| => LowerChar(s[i]))
  }

  /** Lower-casing twice is lower-casing once. */
  lemma ToLowerIdempotent(s: string)
    ensures ToLower(ToLower(s)) == ToLower(s)
  {
  }

  function DigitChar(d: nat): (c: char)
    requires d < 10
    ensures IsDigit(c) && DigitValue(c) == d
  {
    ['0', '1', '2', '3', '4', '5', '6', '7', '8', '9'][d]
  }

  predicate IsDigit(c: char) {
    '0' <= c <= '9'
  }

  /** The value of one decimal digit. */
  function DigitValue(c: char): nat
    requires IsDigit(c)
  {
    c as int - '0' as int
  }

  /** The number a string of decimal digits spells, most significant digit
      first. */
  function DigitsValue(s: string): nat
    requires forall i :: 0 <= i < |s| ==> IsDigit(s[i])
    decreases |s|
  {
    if s == [] then 0 else 10 * DigitsValue(s[..|s| - 1]) + DigitValue(s[|s| - 1])
  }

  /** The decimal text of a natural number, as a template literal renders it:
      digits without a leading zero that spell the number. */
  function DecimalText(n: nat): (r: string)
    ensures r != []
    ensures forall i :: 0 <= i < |r| ==> IsDigit(r[i])
    ensures |r| > 1 ==> r[0] != '0'
    ensures DigitsValue(r) == n
    decreases n
  {
    if n < 10 then [DigitChar(n)]
    else
      var high := DecimalText(n / 10);
      assert (high + [DigitChar(n % 10)])[..|high|] == high;
      high + [DigitChar(n % 10)]
  }

  /** Different numbers have different texts, so ids built as a fixed prefix
      followed by the clock reading differ whenever the readings do. */
  lemma DecimalTextInjective(prefix: string, m: nat, n: nat)
    ensures prefix + DecimalText(m) == prefix + DecimalText(n) ==> m == n
  {
    if prefix + DecimalText(m) == prefix + DecimalText(n) {
      assert (prefix + DecimalText(m))[|prefix|..] == DecimalText(m);
      assert (prefix + DecimalText(n))[|prefix|..] == DecimalText(n);
    }
  }
}
