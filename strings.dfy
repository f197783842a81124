/**
 * The parts of Python's `str` the core relies on: the whitespace test behind
 * `split()` and `strip()`, the word count `len(s.split())`, `strip()`, the
 * decimal rendering of an `int` inside an f-string, and `sep.join(parts)`.
 */
module Strings {

  /** Python's `str.isspace` on one character: the characters `split()` and `strip()` treat as whitespace. */
  predicate IsSpace(c: char)
  {
    || '\U{9}' <= c <= '\U{D}'
    || '\U{1C}' <= c <= '\U{20}'
    || c == '\U{85}' || c == '\U{A0}' || c == '\U{1680}'
    || '\U{2000}' <= c <= '\U{200A}'
    || c == '\U{2028}' || c == '\U{2029}' || c == '\U{202F}' || c == '\U{205F}' || c == '\U{3000}'
  }

  predicate AllSpace(s: string)
  {
    forall i | 0 <= i < |s| :: IsSpace(s[i])
  }

  /** Drops the word that `s` starts with (its leading run of non-whitespace characters). */
  function SkipWord(s: string): (rest: string)
    ensures |rest| <= |s| && rest == s[|s| - |rest|..]
    ensures s != [] && !IsSpace(s[0]) ==> |rest| < |s|
    ensures rest == [] || IsSpace(rest[0])
  {
    if s == [] || IsSpace(s[0]) then s else SkipWord(s[1..])
  }

  /**
   * `len(s.split())`: the number of maximal runs of non-whitespace characters.
   * It is zero exactly for blank strings, and words need a separator between
   * them, so there are at most half as many words as characters, rounded up.
   */
  function WordCount(s: string): (n: nat)
    ensures n == 0 <==> AllSpace(s)
    ensures 2 * n <= |s| + 1
    decreases |s|
  {
    if s == [] then 0
    else if IsSpace(s[0]) then WordCount(s[1..])
    else 1 + WordCount(SkipWord(s))
  }

  /** `s.lstrip()`: the suffix left after dropping leading whitespace. */
  function StripLeading(s: string): (r: string)
    ensures |r| <= |s| && r == s[|s| - |r|..]
    ensures AllSpace(s[..|s| - |r|])
    ensures r == [] || !IsSpace(r[0])
  {
    if s != [] && IsSpace(s[0]) then
      var r := StripLeading(s[1..]);
      assert s[..|s| - |r|] == [s[0]] + s[1..][..|s| - 1 - |r|];
      r
    else s
  }

  /** `s.rstrip()`: the prefix left after dropping trailing whitespace. */
  function StripTrailing(s: string): (r: string)
    ensures |r| <= |s| && r == s[..|r|]
    ensures AllSpace(s[|r|..])
    ensures r == [] || !IsSpace(r[|r| - 1])
  {
    if s != [] && IsSpace(s[|s| - 1]) then
      var r := StripTrailing(s[..|s| - 1]);
      assert s[|r|..] == s[..|s| - 1][|r|..] + [s[|s| - 1]];
      r
    else s
  }

  /** `s.strip()`: empty exactly when `s` is blank; otherwise it neither starts nor ends with whitespace. */
  function Strip(s: string): (r: string)
    ensures |r| <= |s|
    ensures r == [] <==> AllSpace(s)
    ensures r == [] || (!IsSpace(r[0]) && !IsSpace(r[|r| - 1]))
  {
    var left := StripLeading(s);
    var r := StripTrailing(left);
    assert s == s[..|s| - |left|] + left;
    assert r == [] ==> left == left[|r|..];
    r
  }

  predicate IsDigit(c: char)
  {
    '0' <= c <= '9'
  }

  predicate AllDigits(s: string)
  {
    forall i | 0 <= i < |s| :: IsDigit(s[i])
  }

  function DigitChar(d: nat): (c: char)
    requires d < 10
    ensures IsDigit(c) && c as int - '0' as int == d
  {
    (d + '0' as int) as char
  }

  /** The decimal numeral of `n`, as `str(n)` or an f-string writes it: no sign, no leading zero. */
  function NatToDecimal(n: nat): (s: string)
    ensures |s| >= 1 && AllDigits(s)
    ensures s[0] == '0' <==> n == 0
    decreases n
  {
    if n < 10 then [DigitChar(n)] else NatToDecimal(n / 10) + [DigitChar(n % 10)]
  }

  /** The number a string of decimal digits denotes (the reading direction of `NatToDecimal`). */
  function DecimalValue(s: string): (n: nat)
    requires AllDigits(s)
  {
    if s == [] then 0 else 10 * DecimalValue(s[..|s| - 1]) + (s[|s| - 1] as int - '0' as int)
  }

  /** Rendering a number in decimal loses nothing: reading the numeral back gives the number. */
  lemma {:induction false} DecimalRoundTrip(n: nat)
    ensures DecimalValue(NatToDecimal(n)) == n
  {
    if n >= 10 {
      var s := NatToDecimal(n / 10);
      var t := s + [DigitChar(n % 10)];
      assert t[..|t| - 1] == s;
      DecimalRoundTrip(n / 10);
    }
  }

  /** `sep.join(parts)`. The first part always opens the result. */
  function JoinWith(sep: string, parts: seq<string>): (r: string)
    ensures |parts| > 0 ==> parts[0] <= r
  {
    if |parts| == 0 then ""
    else if |parts| == 1 then parts[0]
    else
      var front := parts[..|parts| - 1];
      assert front[0] == parts[0];
      JoinWith(sep, front) + sep + parts[|parts| - 1]
  }

  /**
   * Read from the front: a first part followed by at least one more is that
   * part, the separator, and the join of the rest.
   */
  lemma {:induction false} JoinWithCons(sep: string, first: string, rest: seq<string>)
    requires rest != []
    ensures JoinWith(sep, [first] + rest) == first + sep + JoinWith(sep, rest)
  {
    var parts := [first] + rest;
    var last := rest[|rest| - 1];
    if |rest| == 1 {
      assert parts[..1] == [first];
    } else {
      var init := rest[..|rest| - 1];
      assert parts[..|parts| - 1] == [first] + init;
      assert rest[..|rest| - 1] == init;
      JoinWithCons(sep, first, init);
      assert JoinWith(sep, parts) == first + sep + JoinWith(sep, init) + sep + last;
      assert JoinWith(sep, rest) == JoinWith(sep, init) + sep + last;
    }
  }
}
