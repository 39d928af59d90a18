/** Decimal numerals, as printf writes them and as the servers read them. */
module Decimal {

  predicate IsDigit(c: char) {
    '0' <= c <= '9'
  }

  function Digit(d: nat): (c: char)
    requires d < 10
    ensures IsDigit(c) && DigitValue(c) == d
  {
    '0' + d as char
  }

  function DigitValue(c: char): (d: nat)
    requires IsDigit(c)
    ensures d < 10
  {
    (c - '0') as nat
  }

  predicate AllDigits(s: string) {
    forall i :: 0 <= i < |s| ==> IsDigit(s[i])
  }

  function Numeral(n: nat): (s: string)
    ensures |s| > 0 && AllDigits(s)
  {
    if n < 10 then [Digit(n)] else Numeral(n / 10) + [Digit(n % 10)]
  }

  /** `width` digits, zero-padded. */
  function Padded(n: nat, width: nat): (s: string)
    ensures |s| == width
  {
    if width == 0 then "" else Padded(n / 10, width - 1) + [Digit(n % 10)]
  }

  function Value(s: string): nat
    requires AllDigits(s)
  {
    if s == "" then 0 else Value(s[..|s| - 1]) * 10 + DigitValue(s[|s| - 1])
  }

  /** Leading zeros count for nothing. */
  lemma {:induction false} LeadingZeros(s: string, k: nat)
    requires AllDigits(s) && k <= |s| && forall i :: 0 <= i < k ==> s[i] == '0'
    ensures AllDigits(s[k..]) && Value(s) == Value(s[k..])
    decreases |s|
  {
    if s != "" {
      var front := s[..|s| - 1];
      if k < |s| {
        LeadingZeros(front, k);
        assert s[k..][..|s| - k - 1] == front[k..];
      } else {
        LeadingZeros(front, k - 1);
      }
    }
  }

  lemma {:induction false} NumeralRoundTrip(n: nat)
    ensures Value(Numeral(n)) == n
  {
    if n >= 10 {
      NumeralRoundTrip(n / 10);
      assert Numeral(n)[..|Numeral(n)| - 1] == Numeral(n / 10);
    } else {
      assert Numeral(n)[..0] == "";
    }
  }

  lemma {:induction false} PaddedRoundTrip(n: nat, width: nat)
    requires n < Pow10(width)
    ensures AllDigits(Padded(n, width)) && Value(Padded(n, width)) == n
  {
    if width > 0 {
      PaddedRoundTrip(n / 10, width - 1);
      assert Padded(n, width)[..width - 1] == Padded(n / 10, width - 1);
    }
  }

  function Pow10(k: nat): nat {
    if k == 0 then 1 else 10 * Pow10(k - 1)
  }

  lemma {:induction false} NumeralLength(n: nat, k: nat)
    requires k >= 1 && n < Pow10(k)
    ensures |Numeral(n)| <= k
  {
    if n >= 10 {
      assert k > 1 by {
        assert Pow10(1) == 10 * Pow10(0) == 10;
      }
      NumeralLength(n / 10, k - 1);
    }
  }

  lemma WordFitsTwentyDigits(n: nat)
    requires n < 0x1_0000_0000_0000_0000
    ensures |Numeral(n)| <= 20
  {
    Pow10Split(10, 10);
    Pow10Split(5, 5);
    assert Pow10(5) == 100000 by {
      assert Pow10(2) == 100 && Pow10(3) == 1000 && Pow10(4) == 10000;
    }
    NumeralLength(n, 20);
  }

  lemma Regroup(x: nat, y: nat, z: nat)
    ensures x * (y * z) == (x * y) * z
  {
  }

  lemma {:induction false} Pow10Split(a: nat, b: nat)
    ensures Pow10(a + b) == Pow10(a) * Pow10(b)
  {
    if a > 0 {
      Pow10Split(a - 1, b);
      assert Pow10(a + b) == 10 * Pow10(a - 1 + b);
      Regroup(10, Pow10(a - 1), Pow10(b));
    }
  }
}
