/** The primality server's arithmetic, in wrapping 64-bit words.

  Trial division stops when the square of the divisor exceeds the number.  Above
  (2^32 - 1)^2 that square no longer fits a word and the comparison is made on
  what is left of it, so it is not obvious that the loop ends at all, or ends
  with the right answer.  It does, always: the square of `STOP` wraps to
  2^64 - 7, which exceeds every word but seven, and the odd ones among those have
  small factors.
*/
module Primality {
  import opened Decimal
  import opened Words

  const HALF: nat := 0x1_0000_0000
  const STOP: nat := 1852311383259529397

  predicate Divides(d: nat, n: nat)
    requires d > 0
  {
    n % d == 0
  }

  ghost predicate Prime(n: nat) {
    n >= 2 && forall d :: 2 <= d < n ==> !Divides(d, n)
  }

  /** No odd number from 3 up to `r`, exclusive, divides `n`. */
  ghost predicate TriedBelow(n: nat, r: nat) {
    forall d :: 3 <= d < r && d % 2 == 1 ==> !Divides(d, n)
  }

  lemma StopWraps()
    ensures STOP * STOP % WORD == WORD - 7 && STOP % 2 == 1
  {
  }

  lemma SquareGrows(a: nat, b: nat)
    requires a <= b
    ensures a * a <= b * b
  {
    TimesMonotone(a, a, b);
    Commute(a, b);
    TimesMonotone(b, a, b);
  }

  lemma SmallMod(x: nat)
    requires x < WORD
    ensures x % WORD == x
  {
  }

  /** Squares below 2^32 do not wrap. */
  lemma SmallSquare(r: nat)
    requires r < HALF
    ensures r * r % WORD == r * r < WORD
  {
    SquareGrows(r, HALF - 1);
    assert (HALF - 1) * (HALF - 1) < WORD;
    SmallMod(r * r);
  }

  /** Squares from 2^32 on exceed every word. */
  lemma LargeSquare(r: nat)
    requires r >= HALF
    ensures r * r >= WORD
  {
    SquareGrows(HALF, r);
  }

  /** The odd words that STOP's square does not exceed. */
  lemma TopWordsHaveFactors(n: nat)
    requires WORD - 7 <= n < WORD && n % 2 == 1
    ensures Divides(3, n) || Divides(11, n) || Divides(13, n)
  {
    assert n == WORD - 7 || n == WORD - 5 || n == WORD - 3 || n == WORD - 1;
  }

  lemma EvenTimes(d: nat, q: nat)
    requires d % 2 == 0
    ensures d * q % 2 == 0
  {
    var h := d / 2;
    assert d * q == 2 * (h * q);
  }

  lemma OddFactors(d: nat, q: nat)
    requires d * q % 2 == 1
    ensures d % 2 == 1 && q % 2 == 1
  {
    if d % 2 == 0 {
      EvenTimes(d, q);
    } else if q % 2 == 0 {
      assert d * q == q * d;
      EvenTimes(q, d);
    }
  }

  lemma TimesAtLeast(d: nat, k: int)
    ensures k >= 1 ==> d * k >= d
    ensures k <= -1 ==> d * k + d <= 0
  {
  }

  lemma FactorDivides(n: nat, d: nat, q: nat)
    requires d > 0 && n == d * q
    ensures Divides(d, n)
  {
    var k := q - n / d;
    assert n == d * (n / d) + n % d;
    assert d * k == d * q - d * (n / d) == n % d;
    TimesAtLeast(d, k);
  }

  lemma Cofactor(n: nat, d: nat) returns (q: nat)
    requires 2 <= d < n && Divides(d, n)
    ensures n == d * q && q >= 2
  {
    q := n / d;
    assert n == d * q;
    assert q != 0 && q != 1;
  }

  lemma TimesMonotone(x: nat, y: nat, z: nat)
    requires y <= z
    ensures x * y <= x * z
  {
  }

  lemma Commute(x: nat, y: nat)
    ensures x * y == y * x
  {
  }

  /** A divisor and its cofactor; the smaller of the two squares to at most the number. */
  lemma SmallerFactor(n: nat, d: nat) returns (m: nat)
    requires n % 2 == 1 && 2 <= d < n && Divides(d, n)
    ensures 3 <= m && m % 2 == 1 && m * m <= n && Divides(m, n)
  {
    var q := Cofactor(n, d);
    OddFactors(d, q);
    if d <= q {
      m := d;
      TimesMonotone(d, d, q);
    } else {
      m := q;
      TimesMonotone(q, q, d);
      Commute(d, q);
      FactorDivides(n, q, d);
    }
  }

  /** An odd number without odd divisors up to its square root is prime. */
  lemma TriedEnough(n: nat, r: nat)
    requires n >= 3 && n % 2 == 1 && TriedBelow(n, r) && n < r * r
    ensures Prime(n)
  {
    forall d | 2 <= d < n
      ensures !Divides(d, n)
    {
      if Divides(d, n) {
        var m := SmallerFactor(n, d);
        if m >= r {
          SquareGrows(r, m);
        }
      }
    }
  }

  // --------------------------------------------------------------------- the test

  /** What is known when divisor `r` comes up. */
  ghost predicate Trying(n: nat, r: nat) {
    && n < WORD && n % 2 == 1 && 3 <= r <= STOP && r % 2 == 1 && TriedBelow(n, r)
    && (r >= HALF ==> n >= (HALF - 1) * (HALF - 1))
  }

  /** The stopping point is never passed. */
  lemma NotAtStop(n: nat, r: nat)
    requires Trying(n, r) && r * r % WORD <= n
    ensures r + 2 <= STOP
  {
    StopWraps();
    if r == STOP {
      TopWordsHaveFactors(n);
    }
  }

  lemma ThreeTimes(r: nat)
    requires r >= 3
    ensures 3 * r <= r * r
  {
  }

  lemma LastOddBelowHalf(r: nat)
    requires HALF <= r + 2 && r < HALF && r % 2 == 1
    ensures r == HALF - 1
  {
  }

  lemma SmallDivisor(n: nat, r: nat)
    requires 3 <= r < HALF && r * r % WORD <= n
    ensures r < n && (r + 2 >= HALF && r % 2 == 1 ==> n >= (HALF - 1) * (HALF - 1))
  {
    SmallSquare(r);
    ThreeTimes(r);
    if r + 2 >= HALF && r % 2 == 1 {
      LastOddBelowHalf(r);
    }
  }

  /** The loop goes on: its divisor is smaller than the number and not the last one. */
  lemma GoesOn(n: nat, r: nat)
    requires Trying(n, r) && r * r % WORD <= n
    ensures r < n && r + 2 <= STOP && (r + 2 >= HALF ==> n >= (HALF - 1) * (HALF - 1))
  {
    NotAtStop(n, r);
    if r < HALF {
      SmallDivisor(n, r);
    }
  }

  /** The loop ends: everything up to the square root has been tried. */
  lemma TriedAll(n: nat, r: nat)
    requires Trying(n, r) && r * r % WORD > n
    ensures n < r * r
  {
    if r < HALF {
      SmallSquare(r);
    } else {
      LargeSquare(r);
    }
  }

  lemma EvenPrime(n: nat)
    requires n % 2 == 0
    ensures Prime(n) <==> n == 2
  {
    if n > 2 {
      assert Divides(2, n);
    }
  }

  lemma HasDivisor(n: nat, r: nat)
    requires 2 <= r < n && n % r == 0
    ensures !Prime(n)
  {
    assert Divides(r, n);
  }

  /** A divisor that fails makes way for the next odd number. */
  lemma NextDivisor(n: nat, r: nat)
    requires Trying(n, r) && n % r != 0 && r + 2 <= STOP && (r + 2 >= HALF ==> n >= (HALF - 1) * (HALF - 1))
    ensures Trying(n, r + 2)
  {
    assert !Divides(r, n);
  }

  /** What survives all divisors is prime, or 1. */
  lemma Survives(n: nat, r: nat)
    requires Trying(n, r) && r * r % WORD > n
    ensures Prime(n) || n == 1
  {
    TriedAll(n, r);
    if n >= 3 {
      TriedEnough(n, r);
    }
  }

  /** Right for every 64-bit number but one: 1 is called prime. */
  method IsPrime(n: nat) returns (prime: bool)
    requires n < WORD
    ensures prime <==> Prime(n) || n == 1
  {
    if n % 2 == 0 {
      EvenPrime(n);
      return n == 2;
    }
    var r := 3;
    while r * r % WORD <= n
      invariant Trying(n, r)
      decreases STOP - r
    {
      GoesOn(n, r);
      if n % r == 0 {
        HasDivisor(n, r);
        return false;
      }
      NextDivisor(n, r);
      r := r + 2;
    }
    Survives(n, r);
    return true;
  }

  // ------------------------------------------------------------------- the request

  function LeadingDigits(text: string): (s: string)
    ensures AllDigits(s)
  {
    if text != "" && IsDigit(text[0]) then [text[0]] + LeadingDigits(text[1..]) else ""
  }

  lemma {:induction false} LeadingDigitsStep(text: string, i: nat)
    requires i <= |text| && AllDigits(text[..i])
    ensures i <= |LeadingDigits(text)| && text[..i] == LeadingDigits(text)[..i]
    ensures (i < |text| && !IsDigit(text[i])) || i == |text| ==> LeadingDigits(text) == text[..i]
  {
    if i > 0 {
      assert IsDigit(text[..i][0]);
      assert text[1..][..i - 1] == text[..i][1..];
      LeadingDigitsStep(text[1..], i - 1);
      assert text[..i] == [text[0]] + text[1..][..i - 1];
    }
  }

  lemma ModStep(v: nat, d: nat)
    ensures (v % WORD * 10 + d) % WORD == (v * 10 + d) % WORD
  {
    var k, m := v / WORD, v % WORD;
    assert v == WORD * k + m;
    assert v * 10 + d == WORD * (10 * k) + (m * 10 + d);
  }

  /** The leading digits, read into a word that wraps. */
  method ParseNumber(text: string) returns (number: nat)
    ensures number == Value(LeadingDigits(text)) % WORD
  {
    number := 0;
    var i := 0;
    while i < |text|
      invariant i <= |text| && AllDigits(text[..i]) && number == Value(text[..i]) % WORD
    {
      if !IsDigit(text[i]) {
        break;
      }
      ModStep(Value(text[..i]), DigitValue(text[i]));
      assert text[..i + 1][..i] == text[..i];
      number := (number * 10 + DigitValue(text[i])) % WORD;
      i := i + 1;
    }
    LeadingDigitsStep(text, i);
  }

  /** The reply to a request. */
  method Reply(text: string) returns (reply: string)
    ensures var n := Value(LeadingDigits(text)) % WORD;
            reply == if Prime(n) || n == 1 then "prime\n" else "composite\n"
  {
    var number := ParseNumber(text);
    var prime := IsPrime(number);
    reply := if prime then "prime\n" else "composite\n";
  }

  lemma {:induction false} LeadingDigitsOf(digits: string, rest: string)
    requires AllDigits(digits) && (rest == "" || !IsDigit(rest[0]))
    ensures LeadingDigits(digits + rest) == digits
  {
    if digits == "" {
      assert digits + rest == rest;
    } else {
      assert (digits + rest)[1..] == digits[1..] + rest;
      LeadingDigitsOf(digits[1..], rest);
    }
  }

  /** A number written in decimal and ended by anything but a digit is read back. */
  lemma {:induction false} RequestRoundTrip(n: nat, rest: string)
    requires n < WORD && (rest == "" || !IsDigit(rest[0]))
    ensures Value(LeadingDigits(Numeral(n) + rest)) % WORD == n
  {
    LeadingDigitsOf(Numeral(n), rest);
    NumeralRoundTrip(n);
  }
}
