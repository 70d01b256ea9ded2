/**
  The JavaScript string primitives the components rely on, restricted to
  what can be stated without locale or Unicode tables: `toLowerCase` on
  ASCII letters, `includes`, `trim`, `split(c)[0]`, the decimal text of a
  number, and a code-point order standing in for `localeCompare`.
 */
module Texto {

  // ---------------------------------------------------------------- case

  predicate IsAsciiUpper(c: char) {
    'A' <= c <= 'Z'
  }

  function LowerChar(c: char): (r: char)
    ensures !IsAsciiUpper(r)
    ensures IsAsciiUpper(c) ==> r as int - c as int == 'a' as int - 'A' as int
    ensures !IsAsciiUpper(c) ==> r == c
  {
    if IsAsciiUpper(c) then (c as int - 'A' as int + 'a' as int) as char else c
  }

  /** `toLowerCase`, for the ASCII letters only. */
  function ToLowerCase(s: string): (r: string)
    ensures |r| == |s|
    ensures forall i :: 0 <= i < |s| ==> r[i] == LowerChar(s[i])
    ensures forall i :: 0 <= i < |r| ==> !IsAsciiUpper(r[i])
  {
    seq(|s|, i requires 0 <= i < |s| => LowerChar(s[i]))
  }

  lemma ToLowerCaseIdempotent(s: string)
    ensures ToLowerCase(ToLowerCase(s)) == ToLowerCase(s)
  {
  }

  // ------------------------------------------------------------ includes

  /** `n` occurs in `h` starting at index `i`. */
  predicate OccursAt(h: string, n: string, i: int) {
    0 <= i && i + |n| <= |h| && h[i..i + |n|] == n
  }

  /** `h.includes(n)`: scans `h` from the left for a copy of `n`. */
  function Includes(h: string, n: string): bool
    decreases |h|
  {
    if |n| > |h| then false
    else if h[..|n|] == n then true
    else Includes(h[1..], n)
  }

  lemma {:induction false} IncludesIffOccurs(h: string, n: string)
    ensures Includes(h, n) <==> exists i :: OccursAt(h, n, i)
    decreases |h|
  {
    if |n| > |h| {
    } else if h[..|n|] == n {
      assert OccursAt(h, n, 0);
    } else {
      IncludesIffOccurs(h[1..], n);
      forall i | OccursAt(h, n, i)
        ensures OccursAt(h[1..], n, i - 1)
      {
        assert i != 0;
        assert h[1..][i - 1..i - 1 + |n|] == h[i..i + |n|];
      }
      forall i | OccursAt(h[1..], n, i)
        ensures OccursAt(h, n, i + 1)
      {
        assert h[1..][i..i + |n|] == h[i + 1..i + 1 + |n|];
      }
    }
  }

  // ---------------------------------------------------------------- trim

  /**
    The characters `trim` removes: ECMAScript WhiteSpace (tab, vertical
    tab, form feed, space, no-break space, zero-width no-break space and
    the space separators) and LineTerminator (LF, CR, U+2028, U+2029).
   */
  predicate IsWhiteSpace(c: char) {
    c == '\t' || c == '\n' || c == '\U{B}' || c == '\U{C}' || c == '\r' || c == ' '
    || c == '\U{A0}' || c == '\U{1680}' || ('\U{2000}' <= c <= '\U{200A}')
    || c == '\U{2028}' || c == '\U{2029}' || c == '\U{202F}' || c == '\U{205F}'
    || c == '\U{3000}' || c == '\U{FEFF}'
  }

  /** Number of white-space characters at the start of `s`. */
  function LeadingWhiteSpace(s: string): (k: nat)
    ensures k <= |s|
    ensures forall i :: 0 <= i < k ==> IsWhiteSpace(s[i])
    ensures k < |s| ==> !IsWhiteSpace(s[k])
  {
    if s != [] && IsWhiteSpace(s[0]) then 1 + LeadingWhiteSpace(s[1..]) else 0
  }

  /** Number of white-space characters at the end of `s`. */
  function TrailingWhiteSpace(s: string): (k: nat)
    ensures k <= |s|
    ensures forall i :: |s| - k <= i < |s| ==> IsWhiteSpace(s[i])
    ensures k < |s| ==> !IsWhiteSpace(s[|s| - 1 - k])
  {
    if s != [] && IsWhiteSpace(s[|s| - 1]) then 1 + TrailingWhiteSpace(s[..|s| - 1]) else 0
  }

  /**
    `r` is `s` with `k` characters cut from the front and `m` from the back,
    every one of them white space.
   */
  predicate CutWhiteSpace(s: string, r: string, k: int, m: int) {
    && 0 <= k && 0 <= m && k + m <= |s|
    && r == s[k..|s| - m]
    && (forall i :: 0 <= i < k ==> IsWhiteSpace(s[i]))
    && (forall i :: |s| - m <= i < |s| ==> IsWhiteSpace(s[i]))
  }

  /**
    `trim`: drops leading white space, then trailing white space. Only white
    space at the two ends is cut, and all of it: what is left is empty or
    starts and ends with a character that is not white space.
   */
  function Trim(s: string): (r: string)
    ensures r == [] || (!IsWhiteSpace(r[0]) && !IsWhiteSpace(r[|r| - 1]))
    ensures exists k, m :: CutWhiteSpace(s, r, k, m)
  {
    var k := LeadingWhiteSpace(s);
    var t := s[k..];
    var m := TrailingWhiteSpace(t);
    assert s[k..|s| - m] == t[..|t| - m];
    forall i | |s| - m <= i < |s| ensures IsWhiteSpace(s[i]) {
      assert s[i] == t[i - k];
    }
    assert CutWhiteSpace(s, t[..|t| - m], k, m);
    t[..|t| - m]
  }

  /** `!s.trim()`: the text is empty or white space only. */
  predicate IsBlank(s: string) {
    Trim(s) == ""
  }

  lemma BlankIffAllWhiteSpace(s: string)
    ensures IsBlank(s) <==> forall i :: 0 <= i < |s| ==> IsWhiteSpace(s[i])
  {
    var k := LeadingWhiteSpace(s);
    var t := s[k..];
    if k < |s| {
      assert t[0] == s[k];
      assert TrailingWhiteSpace(t) < |t|;
    }
  }

  // --------------------------------------------------------------- split

  /** `s.split(sep)[0]`: the text before the first `sep`, or all of `s`. */
  function BeforeFirst(s: string, sep: char): (r: string)
    ensures |r| <= |s| && r == s[..|r|]
    ensures sep !in r
    ensures |r| < |s| ==> s[|r|] == sep
  {
    if s == [] || s[0] == sep then [] else [s[0]] + BeforeFirst(s[1..], sep)
  }

  // ------------------------------------------------------- decimal text

  predicate IsDigit(c: char) {
    '0' <= c <= '9'
  }

  function DigitChar(d: nat): (c: char)
    requires d < 10
    ensures IsDigit(c) && c as int - '0' as int == d
  {
    (d + '0' as int) as char
  }

  /** The decimal text of a non-negative integer, as a template literal prints it. */
  function NatToString(n: nat): (r: string)
    ensures r != []
    ensures forall i :: 0 <= i < |r| ==> IsDigit(r[i])
    ensures |r| == 1 <==> n < 10
    ensures r[0] == '0' <==> n == 0
  {
    if n < 10 then [DigitChar(n)]
    else
      var front := NatToString(n / 10);
      assert (front + [DigitChar(n % 10)])[0] == front[0];
      front + [DigitChar(n % 10)]
  }

  function DigitValue(c: char): (d: nat)
    requires IsDigit(c)
    ensures d < 10
  {
    c as int - '0' as int
  }

  /** The number a string of decimal digits denotes. */
  function DecimalValue(s: string): nat
    requires forall i :: 0 <= i < |s| ==> IsDigit(s[i])
  {
    if s == [] then 0
    else DecimalValue(s[..|s| - 1]) * 10 + DigitValue(s[|s| - 1])
  }

  lemma {:induction false} DecimalRoundTrip(n: nat)
    ensures DecimalValue(NatToString(n)) == n
  {
    if n >= 10 {
      var r := NatToString(n);
      DecimalRoundTrip(n / 10);
      assert r[..|r| - 1] == NatToString(n / 10);
    }
  }

  // ------------------------------------------------------------- ordering

  /**
    Three-way comparison of two texts by code points, shorter prefix first.
    It stands in for `localeCompare`, whose collation depends on the locale:
    what the sort needs from it is a total order, which this is.
   */
  function CodePointCompare(a: string, b: string): (r: int)
    ensures -1 <= r <= 1
    ensures r == 0 <==> a == b
  {
    if a == [] && b == [] then 0
    else if a == [] then -1
    else if b == [] then 1
    else if a[0] < b[0] then -1
    else if a[0] > b[0] then 1
    else
      var r := CodePointCompare(a[1..], b[1..]);
      assert r == 0 ==> a == [a[0]] + a[1..] && b == [b[0]] + b[1..];
      r
  }

  lemma {:induction false} CodePointCompareAntisymmetric(a: string, b: string)
    ensures CodePointCompare(a, b) == -CodePointCompare(b, a)
  {
    if a != [] && b != [] && a[0] == b[0] {
      CodePointCompareAntisymmetric(a[1..], b[1..]);
    }
  }

  lemma {:induction false} CodePointCompareTransitive(a: string, b: string, c: string)
    requires CodePointCompare(a, b) <= 0 && CodePointCompare(b, c) <= 0
    ensures CodePointCompare(a, c) <= 0
  {
    if a != [] && b != [] && c != [] && a[0] == b[0] == c[0] {
      CodePointCompareTransitive(a[1..], b[1..], c[1..]);
    }
  }
}
