/**
 * The EAN-13 check digit of GS1 General Specifications, section 7.9: the
 * first twelve digits are weighted 1, 3, 1, 3, ... from the left, and the
 * check digit is (10 - sum mod 10) mod 10.
 */
module Ean13 {
  import opened Digits

  /** Weight of the digit at 0-based position i. */
  function Weight(i: nat): (w: nat)
    ensures w == 1 || w == 3
  {
    if i % 2 == 0 then 1 else 3
  }

  /** Sum of the digits of s, the digit at position i weighted by Weight(i). */
  function WeightedSum(s: string): (sum: nat)
    requires AllDigits(s)
  {
    if s == [] then 0
    else WeightedSum(s[..|s| - 1]) + Weight(|s| - 1) * DigitValue(s[|s| - 1])
  }

  /** Appending a digit adds it with the weight of its position. */
  lemma WeightedSumAppend(s: string, c: char)
    requires AllDigits(s) && IsDigit(c)
    ensures AllDigits(s + [c])
    ensures WeightedSum(s + [c]) == WeightedSum(s) + Weight(|s|) * DigitValue(c)
  {
    assert (s + [c])[..|s|] == s;
  }

  /** The check digit expected after the first twelve digits of s. */
  function CheckDigit(s: string): (d: nat)
    requires |s| >= 12 && AllDigits(s)
    ensures d < 10
    ensures (WeightedSum(s[..12]) + d) % 10 == 0
  {
    (10 - WeightedSum(s[..12]) % 10) % 10
  }

  /** Reference definition: 13 digits whose weighted sum, the last digit
      weighted 1, is a multiple of ten. */
  predicate IsEan13(s: string) {
    |s| == 13 && AllDigits(s) && WeightedSum(s) % 10 == 0
  }

  /** Comparing the 13th digit with CheckDigit is the same as IsEan13. */
  lemma CheckDigitMatches(s: string)
    requires |s| == 13 && AllDigits(s)
    ensures CheckDigit(s) == DigitValue(s[12]) <==> IsEan13(s)
  {
    assert s[..13] == s;
    assert WeightedSum(s) == WeightedSum(s[..12]) + DigitValue(s[12]);
  }

  /** The expected check digit rounds the sum up to the next multiple of ten. */
  lemma CheckDigitRoundsUp(s: string)
    requires |s| >= 12 && AllDigits(s)
    ensures CheckDigit(s) == RoundUpToTen(WeightedSum(s[..12])) - WeightedSum(s[..12])
  {
  }

  /** ceil(n / 10) * 10 */
  function RoundUpToTen(n: nat): (m: nat)
    ensures m % 10 == 0 && n <= m < n + 10
  {
    if n % 10 == 0 then n else n - n % 10 + 10
  }

  /** Changing the digit at position k moves the weighted sum by the weighted
      difference of the two digits. */
  lemma {:induction false} WeightedSumOneChange(s: string, t: string, k: nat)
    requires |s| == |t| && AllDigits(s) && AllDigits(t)
    requires k < |s|
    requires forall i :: 0 <= i < |s| && i != k ==> s[i] == t[i]
    ensures WeightedSum(t) - WeightedSum(s) == Weight(k) * (DigitValue(t[k]) - DigitValue(s[k]))
  {
    var n := |s|;
    if k == n - 1 {
      assert s[..n - 1] == t[..n - 1];
    } else {
      WeightedSumOneChange(s[..n - 1], t[..n - 1], k);
    }
  }

  /** A single mistyped digit in a valid EAN-13 code is always detected. */
  lemma SingleDigitErrorDetected(s: string, t: string, k: nat)
    requires IsEan13(s)
    requires |t| == 13 && AllDigits(t)
    requires k < 13 && t[k] != s[k]
    requires forall i :: 0 <= i < 13 && i != k ==> s[i] == t[i]
    ensures !IsEan13(t)
  {
    WeightedSumOneChange(s, t, k);
    var delta := DigitValue(t[k]) - DigitValue(s[k]);
    assert delta != 0 && -10 < delta < 10;
  }
}
