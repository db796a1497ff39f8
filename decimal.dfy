/**
 * Decimal text of numbers as an `std::ostream` writes them with its default
 * flags, the `std::setw`/`std::setfill` left padding, and a reader that parses
 * such text back (the partner every rendering lemma is stated against).
 */
module Decimal {

  predicate IsDigit(c: char) {
    '0' <= c <= '9'
  }

  predicate AllDigits(s: string) {
    forall i :: 0 <= i < |s| ==> IsDigit(s[i])
  }

  function DigitValue(c: char): nat
    requires IsDigit(c)
  {
    c as int - '0' as int
  }

  function DigitChar(d: nat): (c: char)
    requires d < 10
    ensures IsDigit(c) && DigitValue(c) == d
  {
    ('0' as int + d) as char
  }

  function Pow10(k: nat): (p: nat)
    ensures p >= 1
  {
    if k == 0 then 1 else 10 * Pow10(k - 1)
  }

  /** The text `os << n` produces for a non-negative number: no sign, no leading zero. */
  function NatText(n: nat): (r: string)
    ensures 1 <= |r| && AllDigits(r)
    ensures (r[0] == '0') == (n == 0)
    decreases n
  {
    if n < 10 then [DigitChar(n)] else NatText(n / 10) + [DigitChar(n % 10)]
  }

  /** The text `os << n` produces for any integer: a minus sign before negative numbers. */
  function IntText(n: int): (r: string)
    ensures |r| >= 1
    ensures n >= 0 ==> AllDigits(r) && Value(r) == n && (r[0] == '0') == (n == 0)
    ensures n < 0 ==> |r| >= 2 && r[0] == '-' && AllDigits(r[1..]) && Value(r[1..]) == -n && r[1] != '0'
  {
    if n < 0 then
      ValueOfNatText(-n);
      "-" + NatText(-n)
    else
      ValueOfNatText(n);
      NatText(n)
  }

  /** The number a string of decimal digits denotes (leading zeros allowed). */
  function Value(s: string): nat
    requires AllDigits(s)
    decreases |s|
  {
    if s == [] then 0 else 10 * Value(s[..|s| - 1]) + DigitValue(s[|s| - 1])
  }

  /** `std::setw(width) << std::setfill(fill)` before a right-aligned insertion of `s`. */
  function PadLeft(s: string, width: nat, fill: char): (r: string)
    ensures |r| == if |s| < width then width else |s|
    ensures r[|r| - |s|..] == s
    ensures forall i :: 0 <= i < |r| - |s| ==> r[i] == fill
  {
    if |s| < width then seq(width - |s|, _ => fill) + s else s
  }

  /**
   * C++ `a % b` on integers: the remainder truncated toward zero, so it takes the
   * sign of `a` (Dafny's own `%` never gives a negative remainder).
   */
  function TruncRem(a: int, b: nat): (r: int)
    requires b > 0
    ensures -(b as int) < r < b
    ensures a >= 0 ==> 0 <= r && a - r == b * (a / b)
    ensures a < 0 ==> r <= 0 && -a + r == b * ((-a) / b)
  {
    if a >= 0 then a % b else -((-a) % b)
  }

  lemma {:induction false} ValueOfNatText(n: nat)
    ensures Value(NatText(n)) == n
    decreases n
  {
    if n >= 10 {
      ValueOfNatText(n / 10);
      var r := NatText(n);
      assert r[..|r| - 1] == NatText(n / 10);
    }
  }

  lemma {:induction false} Pow10AtLeastTen(k: nat)
    requires 1 <= k
    ensures Pow10(k) >= 10
  {
    if k > 1 {
      Pow10AtLeastTen(k - 1);
    }
  }

  /** The text of `n` fits in `k` characters exactly when `n` has at most `k` digits. */
  lemma {:induction false} NatTextLength(n: nat, k: nat)
    requires 1 <= k
    ensures |NatText(n)| <= k <==> n < Pow10(k)
    decreases n
  {
    if n < 10 {
      Pow10AtLeastTen(k);
    } else if k == 1 {
      assert |NatText(n)| == |NatText(n / 10)| + 1;
    } else {
      NatTextLength(n / 10, k - 1);
      assert |NatText(n)| == |NatText(n / 10)| + 1;
      assert n / 10 < Pow10(k - 1) <==> n < 10 * Pow10(k - 1);
    }
  }

  lemma {:induction false} ZerosValue(z: string)
    requires forall i :: 0 <= i < |z| ==> z[i] == '0'
    ensures AllDigits(z) && Value(z) == 0
    decreases |z|
  {
    if z != [] {
      ZerosValue(z[..|z| - 1]);
    }
  }

  /** Leading zeros do not change the number a digit string denotes. */
  lemma {:induction false} ValueLeadingZeros(z: string, s: string)
    requires AllDigits(s)
    requires forall i :: 0 <= i < |z| ==> z[i] == '0'
    ensures AllDigits(z + s) && Value(z + s) == Value(s)
    decreases |s|
  {
    if s == [] {
      assert z + s == z;
      ZerosValue(z);
    } else {
      ValueLeadingZeros(z, s[..|s| - 1]);
      assert (z + s)[..|z + s| - 1] == z + s[..|s| - 1];
    }
  }

  /**
   * A number below 10^width printed zero-padded to `width` is exactly `width`
   * digits long and reads back as the number.
   */
  lemma ZeroPaddedText(n: nat, width: nat)
    requires 1 <= width && n < Pow10(width)
    ensures |PadLeft(NatText(n), width, '0')| == width
    ensures AllDigits(PadLeft(NatText(n), width, '0'))
    ensures Value(PadLeft(NatText(n), width, '0')) == n
  {
    var t := NatText(n);
    NatTextLength(n, width);
    var r := PadLeft(t, width, '0');
    var z := r[..width - |t|];
    assert r == z + t;
    ValueLeadingZeros(z, t);
    ValueOfNatText(n);
  }
}
