/** Machine words, and two facts about sequences. */
module Words {

  lemma FrontOfFront<T>(a: seq<T>, b: seq<T>, c: seq<T>)
    requires a <= b && b <= c
    ensures a <= c
  {
  }

  lemma Associative<T>(a: seq<T>, b: seq<T>, c: seq<T>)
    ensures (a + b) + c == a + (b + c)
  {
  }

  /** The values of an unsigned 64-bit word. */
  const WORD: nat := 0x1_0000_0000_0000_0000

  predicate FitsInt(x: int) {
    -0x8000_0000 <= x < 0x8000_0000
  }

  /** Signed 32-bit arithmetic, taken as wrapping. */
  function WrapInt(x: int): (r: int)
    ensures FitsInt(r) && (FitsInt(x) ==> r == x)
  {
    (x + 0x8000_0000) % 0x1_0000_0000 - 0x8000_0000
  }

  /** Adding step by step wraps to the same value as adding everything first. */
  lemma WrapStep(x: int, y: int)
    ensures WrapInt(WrapInt(x) + y) == WrapInt(x + y)
  {
    var k := (x + 0x8000_0000) / 0x1_0000_0000;
    assert WrapInt(x) == x - k * 0x1_0000_0000;
    var a := x + y + 0x8000_0000;
    assert (a - k * 0x1_0000_0000) % 0x1_0000_0000 == a % 0x1_0000_0000;
  }

  function Min(a: nat, b: nat): nat {
    if a < b then a else b
  }
}
