/** Decimal numerals as Python prints them (`str(n)` and `f"{n:010d}"`), and what a reader makes of them. */
module Decimal {

  predicate IsDigit(c: char) {
    '0' <= c <= '9'
  }

  predicate AllDigits(s: string) {
    forall i :: 0 <= i < |s| ==> IsDigit(s[i])
  }

  function DigitChar(d: nat): (c: char)
    requires d < 10
    ensures IsDigit(c) && DigitValue(c) == d
  {
    ('0' as int + d) as char
  }

  function DigitValue(c: char): (d: nat)
    requires IsDigit(c)
    ensures d < 10
  {
    c as int - '0' as int
  }

  /** The shortest decimal numeral of `n`. */
  function Numeral(n: nat): (s: string)
    ensures AllDigits(s) && |s| >= 1
    ensures s[0] == '0' ==> n == 0 && s == "0"
  {
    if n < 10 then [DigitChar(n)] else Numeral(n / 10) + [DigitChar(n % 10)]
  }

  /** The number a run of digits stands for; leading zeros are allowed. */
  function Value(s: string): nat
    requires AllDigits(s)
  {
    if s == "" then 0 else 10 * Value(s[..|s| - 1]) + DigitValue(s[|s| - 1])
  }

  function Power10(k: nat): (p: nat)
    ensures p >= 1
  {
    if k == 0 then 1 else 10 * Power10(k - 1)
  }

  lemma {:induction false} ValueOfNumeral(n: nat)
    ensures Value(Numeral(n)) == n
  {
    if n >= 10 {
      var s := Numeral(n);
      ValueOfNumeral(n / 10);
      assert s[..|s| - 1] == Numeral(n / 10);
    } else {
      assert Numeral(n)[..0] == "";
    }
  }

  lemma {:induction false} ValueBound(s: string)
    requires AllDigits(s)
    ensures Value(s) < Power10(|s|)
  {
    if s != "" {
      ValueBound(s[..|s| - 1]);
    }
  }

  /** A numeral has at most `k` digits exactly when the number is below 10^k. */
  lemma {:induction false} NumeralLength(n: nat, k: nat)
    requires k >= 1
    ensures |Numeral(n)| <= k <==> n < Power10(k)
  {
    if n >= 10 {
      if k == 1 {
        assert Power10(1) == 10 * Power10(0);
      } else {
        NumeralLength(n / 10, k - 1);
      }
    } else {
      assert Power10(k) == 10 * Power10(k - 1);
    }
  }

  function Zeros(k: nat): (s: string)
    ensures |s| == k && AllDigits(s)
    ensures forall i :: 0 <= i < k ==> s[i] == '0'
  {
    seq(k, _ => '0')
  }

  /** `f"{n:0{width}d}"`: zeros on the left up to the width, never truncated. */
  function Padded(n: nat, width: nat): (s: string)
    ensures AllDigits(s)
  {
    var digits := Numeral(n);
    if |digits| >= width then digits else Zeros(width - |digits|) + digits
  }

  lemma {:induction false} ValueOfZeros(k: nat, s: string)
    requires AllDigits(s)
    ensures AllDigits(Zeros(k) + s) && Value(Zeros(k) + s) == Value(s)
  {
    var t := Zeros(k) + s;
    if s == "" {
      assert t == Zeros(k);
      if k > 0 {
        assert t[..|t| - 1] == Zeros(k - 1) + "";
        ValueOfZeros(k - 1, "");
      }
    } else {
      assert t[..|t| - 1] == Zeros(k) + s[..|s| - 1];
      ValueOfZeros(k, s[..|s| - 1]);
    }
  }

  lemma ValueOfPadded(n: nat, width: nat)
    ensures Value(Padded(n, width)) == n
  {
    var digits := Numeral(n);
    ValueOfNumeral(n);
    if |digits| < width {
      ValueOfZeros(width - |digits|, digits);
    }
  }

  /** A fixed-width field holds its number exactly when the number fits. */
  lemma PaddedFits(n: nat, width: nat)
    requires width >= 1
    ensures |Padded(n, width)| == width <==> n < Power10(width)
  {
    NumeralLength(n, width);
  }

  /** How many digits a text starts with. */
  function DigitRun(s: string): (k: nat)
    ensures k <= |s| && AllDigits(s[..k])
    ensures k < |s| ==> !IsDigit(s[k])
  {
    if s == "" || !IsDigit(s[0]) then 0
    else
      var k := 1 + DigitRun(s[1..]);
      assert s[..k] == [s[0]] + s[1..][..k - 1];
      k
  }

  lemma {:induction false} DigitRunOfPrefix(digits: string, rest: string)
    requires AllDigits(digits)
    requires rest == "" || !IsDigit(rest[0])
    ensures DigitRun(digits + rest) == |digits|
  {
    if digits == "" {
      assert digits + rest == rest;
    } else {
      assert (digits + rest)[1..] == digits[1..] + rest;
      DigitRunOfPrefix(digits[1..], rest);
    }
  }
}
