/**
 * The few operations of Go's `strings` and `fmt` packages that the pipeline relies on:
 * upper-casing (`strings.ToUpper`), case-insensitive comparison (`strings.EqualFold`)
 * and the decimal rendering of a non-negative integer (`%d`).
 */
module Strings {

  /** Upper-case of one character, restricted to the ASCII letters. */
  function UpperChar(c: char): char {
    if 'a' <= c <= 'z' then (c as int - 'a' as int + 'A' as int) as char else c
  }

  /** `strings.ToUpper`, character by character. */
  function ToUpper(s: string): string {
    seq(|s|, i requires 0 <= i < |s| => UpperChar(s[i]))
  }

  /** `strings.EqualFold`: equal once both sides are upper-cased. */
  predicate EqualFold(a: string, b: string) {
    ToUpper(a) == ToUpper(b)
  }

  /** The ASCII digit for a value below ten. */
  function DigitChar(d: nat): char
    requires d < 10
  {
    ('0' as int + d) as char
  }

  predicate IsDigit(c: char) {
    '0' <= c <= '9'
  }

  /** The decimal rendering of `n`, as `fmt.Sprintf("%d", n)` prints it. */
  function NatToString(n: nat): (s: string)
    ensures |s| > 0
    ensures forall i :: 0 <= i < |s| ==> IsDigit(s[i])
    ensures n >= 10 ==> |s| >= 2
    ensures s[0] == '0' ==> n == 0
  {
    if n < 10 then [DigitChar(n)] else NatToString(n / 10) + [DigitChar(n % 10)]
  }

  /** Reads a string of digits back as a number; the inverse of `NatToString`. */
  function DecimalValue(s: string): nat
    requires forall i :: 0 <= i < |s| ==> IsDigit(s[i])
  {
    if s == [] then 0
    else
      assert IsDigit(s[|s| - 1]);
      DecimalValue(s[..|s| - 1]) * 10 + (s[|s| - 1] as int - '0' as int)
  }

  /** Rendering and reading back a number gives the number. */
  lemma {:induction false} DecimalRoundTrip(n: nat)
    ensures DecimalValue(NatToString(n)) == n
  {
    var s := NatToString(n);
    if n >= 10 {
      DecimalRoundTrip(n / 10);
      assert s[..|s| - 1] == NatToString(n / 10);
    }
  }

  /** Distinct numbers render as distinct strings. */
  lemma NatToStringInjective(m: nat, n: nat)
    requires m != n
    ensures NatToString(m) != NatToString(n)
  {
    DecimalRoundTrip(m);
    DecimalRoundTrip(n);
  }

  /** `prefix + d + suffix` determines `d` once prefix and suffix are fixed. */
  lemma InfixCancel(prefix: string, d1: string, d2: string, suffix: string)
    requires prefix + d1 + suffix == prefix + d2 + suffix
    ensures d1 == d2
  {
    var s1, s2 := prefix + d1 + suffix, prefix + d2 + suffix;
    assert |d1| == |d2|;
    assert s1[|prefix|..|prefix| + |d1|] == d1;
    assert s2[|prefix|..|prefix| + |d2|] == d2;
  }
}
