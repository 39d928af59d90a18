/** The framing protocol every server speaks.

  On connect the server sends '*'.  Outside a frame bytes are discarded until
  '^' opens one; inside, each byte comes back incremented (modulo 256) until '$'
  closes the frame.  `Echo` is the byte-at-a-time reading of that rule, which the
  parsers implement; `Echoed` below says the same thing about whole inputs
  without any state, and `EchoMeaning` connects the two.
*/
module Framing {
  import opened Words

  type Byte = b: int | 0 <= b < 256

  const ACK: Byte := 42
  const OPEN: Byte := 94
  const CLOSE: Byte := 36

  datatype FrameState = WaitForMsg | InMsg

  function Increment(b: Byte): Byte {
    (b + 1) % 256
  }

  function Next(s: FrameState, b: Byte): FrameState {
    match s
    case WaitForMsg => if b == OPEN then InMsg else WaitForMsg
    case InMsg => if b == CLOSE then WaitForMsg else InMsg
  }

  function Emit(s: FrameState, b: Byte): seq<Byte> {
    if s == InMsg && b != CLOSE then [Increment(b)] else []
  }

  /** The parser state after `input`, started in `s`. */
  function After(s: FrameState, input: seq<Byte>): FrameState {
    if input == [] then s
    else Next(After(s, input[..|input| - 1]), input[|input| - 1])
  }

  /** The bytes sent back for `input`, started in `s`. */
  function Echo(s: FrameState, input: seq<Byte>): seq<Byte> {
    if input == [] then []
    else
      var front := input[..|input| - 1];
      Echo(s, front) + Emit(After(s, front), input[|input| - 1])
  }

  /** What a connection owes its peer in total. */
  function Answer(input: seq<Byte>): seq<Byte> {
    [ACK] + Echo(WaitForMsg, input)
  }

  // ---------------------------------------------------------- segmentation

  lemma {:induction false} AfterConcat(s: FrameState, a: seq<Byte>, b: seq<Byte>)
    ensures After(s, a + b) == After(After(s, a), b)
    decreases |b|
  {
    if b == [] {
      assert a + b == a;
    } else {
      AfterConcat(s, a, b[..|b| - 1]);
      assert (a + b)[..|a + b| - 1] == a + b[..|b| - 1];
    }
  }

  /** However an input is cut in two, the pieces answer like the whole. */
  lemma {:induction false} EchoConcat(s: FrameState, a: seq<Byte>, b: seq<Byte>)
    ensures Echo(s, a + b) == Echo(s, a) + Echo(After(s, a), b)
    decreases |b|
  {
    if b == [] {
      assert a + b == a;
    } else {
      var front := b[..|b| - 1];
      EchoConcat(s, a, front);
      AfterConcat(s, a, front);
      assert (a + b)[..|a + b| - 1] == a + front;
      var x, y, z := Echo(s, a), Echo(After(s, a), front), Emit(After(s, a + front), b[|b| - 1]);
      assert Echo(s, a + b) == (x + y) + z;
      Associative(x, y, z);
    }
  }

  /** Each input byte produces at most one output byte. */
  lemma {:induction false} EchoNoLonger(s: FrameState, input: seq<Byte>)
    ensures |Echo(s, input)| <= |input|
  {
    if input != [] {
      EchoNoLonger(s, input[..|input| - 1]);
    }
  }

  lemma EchoStep(s: FrameState, input: seq<Byte>, i: nat)
    requires i < |input|
    ensures After(s, input[..i + 1]) == Next(After(s, input[..i]), input[i])
    ensures Echo(s, input[..i + 1]) == Echo(s, input[..i]) + Emit(After(s, input[..i]), input[i])
  {
    assert input[..i + 1][..i] == input[..i];
  }

  /** One more byte, behind output that is already there. */
  lemma EchoStepBehind(staged: seq<Byte>, s: FrameState, input: seq<Byte>, i: nat)
    requires i < |input|
    ensures After(s, input[..i + 1]) == Next(After(s, input[..i]), input[i])
    ensures staged + Echo(s, input[..i + 1]) ==
            (staged + Echo(s, input[..i])) + Emit(After(s, input[..i]), input[i])
    ensures Echo(s, input[..i + 1]) != [] <==> Echo(s, input[..i]) != [] || Emit(After(s, input[..i]), input[i]) != []
  {
    EchoStep(s, input, i);
    var before, more := Echo(s, input[..i]), Emit(After(s, input[..i]), input[i]);
    Associative(staged, before, more);
  }

  lemma {:induction false} AnswerConcat(a: seq<Byte>, b: seq<Byte>)
    ensures Answer(a + b) == Answer(a) + Echo(After(WaitForMsg, a), b)
  {
    EchoConcat(WaitForMsg, a, b);
  }

  /** More input never changes what was already owed. */
  lemma AnswerMonotone(a: seq<Byte>, b: seq<Byte>)
    requires a <= b
    ensures Answer(a) <= Answer(b)
  {
    AnswerConcat(a, b[|a|..]);
    assert b == a + b[|a|..];
  }

  lemma FrontsCompare(a: seq<Byte>, b: seq<Byte>, c: seq<Byte>)
    requires a <= c && b <= c
    ensures a <= b || b <= a
  {
    assert a == c[..|a|] && b == c[..|b|];
  }

  // ------------------------------------------------- the rule, without state

  /** Position `i` lies in an open frame: some '^' comes before it with no '$' between. */
  ghost predicate Inside(input: seq<Byte>, i: nat)
    requires i <= |input|
  {
    exists j :: 0 <= j < i && input[j] == OPEN && forall k :: j < k < i ==> input[k] != CLOSE
  }

  /** The byte at position `i` is sent back. */
  ghost predicate Echoed(input: seq<Byte>, i: nat)
    requires i < |input|
  {
    Inside(input, i) && input[i] != CLOSE
  }

  /** The positions whose bytes are sent back, in order. */
  ghost function Positions(input: seq<Byte>, n: nat): (ps: seq<nat>)
    requires n <= |input|
    ensures forall k :: 0 <= k < |ps| ==> ps[k] < n && Echoed(input, ps[k])
    ensures forall k, l :: 0 <= k < l < |ps| ==> ps[k] < ps[l]
    ensures forall i :: 0 <= i < n && Echoed(input, i) ==> i in ps
  {
    if n == 0 then []
    else
      var front := Positions(input, n - 1);
      if Echoed(input, n - 1) then front + [n - 1] else front
  }

  lemma {:induction false} InsideIsInMsg(input: seq<Byte>, i: nat)
    requires i <= |input|
    ensures Inside(input, i) <==> After(WaitForMsg, input[..i]) == InMsg
  {
    if i > 0 {
      InsideIsInMsg(input, i - 1);
      EchoStep(WaitForMsg, input, i - 1);
      if input[i - 1] == OPEN {
        assert Inside(input, i);
      } else if input[i - 1] != CLOSE && Inside(input, i - 1) {
        var j :| 0 <= j < i - 1 && input[j] == OPEN && forall k :: j < k < i - 1 ==> input[k] != CLOSE;
        assert Inside(input, i);
      }
    }
  }

  /** `out` is the bytes of `input` at positions `ps`, each incremented. */
  ghost predicate Spells(out: seq<Byte>, input: seq<Byte>, ps: seq<nat>) {
    |out| == |ps| && forall k :: 0 <= k < |ps| ==> ps[k] < |input| && out[k] == Increment(input[ps[k]])
  }

  lemma SpellsMore(out: seq<Byte>, input: seq<Byte>, ps: seq<nat>, n: nat)
    requires Spells(out, input, ps) && n < |input|
    ensures Spells(out + [Increment(input[n])], input, ps + [n])
  {
  }

  lemma {:induction false} EchoPrefixMeaning(input: seq<Byte>, n: nat)
    requires n <= |input|
    ensures Spells(Echo(WaitForMsg, input[..n]), input, Positions(input, n))
  {
    if n > 0 {
      EchoPrefixMeaning(input, n - 1);
      EchoStep(WaitForMsg, input, n - 1);
      InsideIsInMsg(input, n - 1);
      if Echoed(input, n - 1) {
        SpellsMore(Echo(WaitForMsg, input[..n - 1]), input, Positions(input, n - 1), n - 1);
      }
    }
  }

  /** The parser sends back exactly the bytes inside frames, in order, each incremented. */
  lemma EchoMeaning(input: seq<Byte>)
    ensures Spells(Echo(WaitForMsg, input), input, Positions(input, |input|))
  {
    EchoPrefixMeaning(input, |input|);
    assert input[..|input|] == input;
  }

  // --------------------------------------------------------------- frames

  function Frame(payload: seq<Byte>): seq<Byte> {
    [OPEN] + payload + [CLOSE]
  }

  function Frames(payloads: seq<seq<Byte>>): seq<Byte> {
    if payloads == [] then []
    else Frames(payloads[..|payloads| - 1]) + Frame(payloads[|payloads| - 1])
  }

  function Incremented(payload: seq<Byte>): (r: seq<Byte>)
    ensures |r| == |payload|
    ensures forall i :: 0 <= i < |payload| ==> r[i] == Increment(payload[i])
  {
    seq(|payload|, i requires 0 <= i < |payload| => Increment(payload[i]))
  }

  function AllIncremented(payloads: seq<seq<Byte>>): seq<Byte> {
    if payloads == [] then []
    else AllIncremented(payloads[..|payloads| - 1]) + Incremented(payloads[|payloads| - 1])
  }

  lemma {:induction false} PayloadEcho(payload: seq<Byte>)
    requires CLOSE !in payload
    ensures After(InMsg, payload) == InMsg
    ensures Echo(InMsg, payload) == Incremented(payload)
  {
    if payload != [] {
      var front := payload[..|payload| - 1];
      assert forall b :: b in front ==> b in payload;
      PayloadEcho(front);
      assert payload[|payload| - 1] in payload;
      assert Incremented(payload) == Incremented(front) + [Increment(payload[|payload| - 1])];
    }
  }

  lemma SingleByte(s: FrameState, b: Byte)
    ensures After(s, [b]) == Next(s, b) && Echo(s, [b]) == Emit(s, b)
  {
    EchoStep(s, [b], 0);
    assert [b][..1] == [b];
  }

  lemma FrameEcho(payload: seq<Byte>)
    requires CLOSE !in payload
    ensures After(WaitForMsg, Frame(payload)) == WaitForMsg
    ensures Echo(WaitForMsg, Frame(payload)) == Incremented(payload)
  {
    var head := [OPEN] + payload;
    SingleByte(WaitForMsg, OPEN);
    AfterConcat(WaitForMsg, [OPEN], payload);
    EchoConcat(WaitForMsg, [OPEN], payload);
    PayloadEcho(payload);
    SingleByte(InMsg, CLOSE);
    AfterConcat(WaitForMsg, head, [CLOSE]);
    EchoConcat(WaitForMsg, head, [CLOSE]);
  }

  /** Back-to-back frames of '$'-free payloads return the parser to waiting and
      bring back exactly the incremented payloads. */
  lemma {:induction false} FramesEcho(payloads: seq<seq<Byte>>)
    requires forall p :: p in payloads ==> CLOSE !in p
    ensures After(WaitForMsg, Frames(payloads)) == WaitForMsg
    ensures Echo(WaitForMsg, Frames(payloads)) == AllIncremented(payloads)
  {
    if payloads != [] {
      var front, last := payloads[..|payloads| - 1], payloads[|payloads| - 1];
      assert last in payloads && forall p :: p in front ==> p in payloads;
      FramesEcho(front);
      FrameEcho(last);
      AfterConcat(WaitForMsg, Frames(front), Frame(last));
      EchoConcat(WaitForMsg, Frames(front), Frame(last));
    }
  }
}
