/**
 * Decimal rendering of integers, as Go's `strconv.FormatInt(x, 10)` and the
 * `%d` verb of `fmt.Sprintf` produce it, and the inverse reading of such a
 * rendering.  The form fields `fmt` and `cost` and both response summaries
 * are built from these renderings.
 */
module Decimal {
  import opened Wrappers

  predicate IsDigit(c: char) {
    '0' <= c <= '9'
  }

  /** A character that can occur in the decimal rendering of an integer. */
  predicate IsNumeral(c: char) {
    IsDigit(c) || c == '-'
  }

  predicate AllDigits(s: string) {
    forall i :: 0 <= i < |s| ==> IsDigit(s[i])
  }

  predicate AllNumerals(s: string) {
    forall i :: 0 <= i < |s| ==> IsNumeral(s[i])
  }

  function Digit(d: nat): (c: char)
    requires d < 10
    ensures IsDigit(c)
  {
    ('0' as int + d) as char
  }

  function DigitValue(c: char): (d: nat)
    requires IsDigit(c)
    ensures d < 10 && Digit(d) == c
  {
    c as int - '0' as int
  }

  /** The digits of `n`, most significant first, without leading zeros. */
  function NatString(n: nat): (s: string)
    ensures |s| > 0 && AllDigits(s)
    ensures s[0] == '0' ==> n == 0
  {
    if n < 10 then [Digit(n)] else NatString(n / 10) + [Digit(n % 10)]
  }

  /** `strconv.FormatInt(n, 10)`: an optional minus sign followed by the digits of |n|. */
  function FormatInt(n: int): (s: string)
    ensures |s| > 0 && AllNumerals(s)
    ensures IsDigit(s[|s| - 1])
    ensures s[0] == '-' <==> n < 0
  {
    if n < 0 then "-" + NatString(-n) else NatString(n)
  }

  /** The value of a string of decimal digits. */
  function DigitsValue(s: string): nat
    requires AllDigits(s)
  {
    if s == [] then 0 else DigitsValue(s[..|s| - 1]) * 10 + DigitValue(s[|s| - 1])
  }

  /** Reads an optional minus sign followed by at least one digit. */
  function ParseInt(s: string): Option<int> {
    if |s| > 0 && AllDigits(s) then Some(DigitsValue(s))
    else if |s| > 1 && s[0] == '-' && AllDigits(s[1..]) then Some(-(DigitsValue(s[1..]) as int))
    else None
  }

  lemma {:induction false} NatStringValue(n: nat)
    ensures DigitsValue(NatString(n)) == n
  {
    if n >= 10 {
      var s := NatString(n);
      assert s[..|s| - 1] == NatString(n / 10);
      NatStringValue(n / 10);
    }
  }

  /** Reading back a rendering gives the rendered integer. */
  lemma FormatIntRoundTrip(n: int)
    ensures ParseInt(FormatInt(n)) == Some(n)
  {
    if n < 0 {
      assert FormatInt(n)[1..] == NatString(-n);
      NatStringValue(-n);
    } else {
      NatStringValue(n);
    }
  }

  /** Length of the longest prefix of `s` made of numeral characters. */
  function NumeralPrefix(s: string): (k: nat)
    ensures k <= |s| && AllNumerals(s[..k])
    ensures k < |s| ==> !IsNumeral(s[k])
  {
    if s == [] || !IsNumeral(s[0]) then 0
    else
      var k := 1 + NumeralPrefix(s[1..]);
      assert s[..k] == [s[0]] + s[1..][..k - 1];
      k
  }

  /** Start of the longest suffix of `s` made of numeral characters. */
  function NumeralSuffix(s: string): (k: nat)
    ensures k <= |s| && AllNumerals(s[k..])
    ensures 0 < k ==> !IsNumeral(s[k - 1])
  {
    if s == [] || !IsNumeral(s[|s| - 1]) then |s|
    else
      var k := NumeralSuffix(s[..|s| - 1]);
      assert s[k..] == s[..|s| - 1][k..] + [s[|s| - 1]];
      k
  }

  /** Any numeral run that is followed by a non-numeral (or the end) is the leading one. */
  lemma {:induction false} NumeralPrefixUnique(s: string, j: nat)
    requires j <= |s| && AllNumerals(s[..j])
    requires j < |s| ==> !IsNumeral(s[j])
    ensures NumeralPrefix(s) == j
  {
    if j > 0 {
      assert s[..j][0] == s[0];
      assert s[1..][..j - 1] == s[..j][1..];
      NumeralPrefixUnique(s[1..], j - 1);
    }
  }

  /** Any numeral run that is preceded by a non-numeral (or the start) is the trailing one. */
  lemma {:induction false} NumeralSuffixUnique(s: string, j: nat)
    requires j <= |s| && AllNumerals(s[j..])
    requires 0 < j ==> !IsNumeral(s[j - 1])
    ensures NumeralSuffix(s) == j
    decreases |s| - j
  {
    if j < |s| {
      assert s[j..][|s| - 1 - j] == s[|s| - 1];
      assert s[..|s| - 1][j..] == s[j..][..|s| - 1 - j];
      NumeralSuffixUnique(s[..|s| - 1], j);
    }
  }

  /** A rendering followed by a non-numeral character is found again as the leading numeral run. */
  lemma LeadingNumber(n: int, rest: string)
    requires rest != [] && !IsNumeral(rest[0])
    ensures NumeralPrefix(FormatInt(n) + rest) == |FormatInt(n)|
  {
    var s := FormatInt(n) + rest;
    assert s[..|FormatInt(n)|] == FormatInt(n);
    NumeralPrefixUnique(s, |FormatInt(n)|);
  }

  /** A rendering preceded by a non-numeral character is found again as the trailing numeral run. */
  lemma TrailingNumber(before: string, n: int)
    requires before != [] && !IsNumeral(before[|before| - 1])
    ensures NumeralSuffix(before + FormatInt(n)) == |before|
  {
    var s := before + FormatInt(n);
    assert s[|before|..] == FormatInt(n);
    NumeralSuffixUnique(s, |before|);
  }
}
