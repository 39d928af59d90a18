/** The load generator: what a client of the framing servers sends and checks, the
    verdict over all its connections, and the latency percentiles it reports. */
module LoadGenerator {
  import opened Framing
  import opened Kernel
  import opened Words
  import BlockingServer
  import EpollServer
  import EventLoop
  import PeerRuns
  import SelectServer
  import UringServer

  const MAX_PAYLOAD: nat := 512

  // ------------------------------------------------------------------- one connection

  /** What one connection thread leaves behind. */
  datatype Outcome = Outcome(completed: nat, errors: nat, mismatches: nat)

  /** How a thread asked for `messages` requests can end: all of them done, the rest given up
      at the first error, or none started. */
  ghost predicate Possible(o: Outcome, messages: nat) {
    && o.mismatches <= o.completed <= messages
    && match o.errors
       case 0 => o.completed == messages
       case _ => o.completed < messages && (o.errors == 1 || (o.errors == messages && o.completed == 0))
  }

  /** The payload cycles through the lower-case letters. */
  function Letter(i: nat): Byte {
    97 + i % 26
  }

  function Payload(n: nat): (p: seq<Byte>)
    ensures |p| == n && forall i :: 0 <= i < n ==> p[i] == Letter(i)
  {
    seq(n, i requires 0 <= i < n => Letter(i))
  }

  /** It can neither open nor close a frame. */
  lemma PayloadIsPlain(n: nat)
    ensures CLOSE !in Payload(n) && OPEN !in Payload(n)
  {
  }

  method BuildRequest(n: nat) returns (request: seq<Byte>, expected: seq<Byte>)
    ensures request == Frame(Payload(n)) && expected == Incremented(Payload(n))
  {
    var req, exp := new Byte[n + 2], new Byte[n];
    req[0] := OPEN;
    for i := 0 to n
      invariant req[0] == OPEN
      invariant forall k :: 0 < k <= i ==> req[k] == Letter(k - 1)
      invariant forall k :: 0 <= k < i ==> exp[k] == Increment(Letter(k))
    {
      var c := Letter(i);
      req[1 + i] := c;
      exp[i] := Increment(c);
    }
    req[1 + n] := CLOSE;
    request, expected := req[..], exp[..];
    FrameAt(request, Payload(n));
  }

  lemma FrameAt(request: seq<Byte>, payload: seq<Byte>)
    requires |request| == |payload| + 2 && request[0] == OPEN && request[|payload| + 1] == CLOSE
    requires forall k :: 0 < k <= |payload| ==> request[k] == payload[k - 1]
    ensures request == Frame(payload)
  {
  }

  function Repeat(payload: seq<Byte>, times: nat): seq<seq<Byte>> {
    if times == 0 then [] else Repeat(payload, times - 1) + [payload]
  }

  lemma {:induction false} RepeatMembers(payload: seq<Byte>, times: nat)
    ensures forall p :: p in Repeat(payload, times) ==> p == payload
  {
    if times > 0 {
      RepeatMembers(payload, times - 1);
    }
  }

  /** The answer to one more frame is one more incremented payload. */
  lemma NextReply(payload: seq<Byte>, m: nat)
    requires CLOSE !in payload
    ensures Frames(Repeat(payload, m + 1)) == Frames(Repeat(payload, m)) + Frame(payload)
    ensures Answer(Frames(Repeat(payload, m + 1))) == Answer(Frames(Repeat(payload, m))) + Incremented(payload)
  {
    var ps := Repeat(payload, m);
    assert Repeat(payload, m + 1)[..|ps|] == ps;
    RepeatMembers(payload, m);
    FramesEcho(ps);
    FrameEcho(payload);
    AnswerConcat(Frames(ps), Frame(payload));
  }

  /** Two streams read in equal pieces agree exactly if the pieces do. */
  lemma PiecesAgree(a: seq<Byte>, b: seq<Byte>, c: seq<Byte>, d: seq<Byte>)
    requires |a| == |c| && |b| == |d|
    ensures a + b == c + d <==> a == c && b == d
  {
    if a + b == c + d {
      assert a == (a + b)[..|a|] == (c + d)[..|c|] == c;
      assert b == (a + b)[|a|..] == (c + d)[|c|..] == d;
    }
  }

  /** All a client may ask of a server: what it has put on the wire is a front of the answer
      to what the client sent. */
  ghost predicate Owed(wire: seq<Byte>, sent: seq<Byte>) {
    wire <= Answer(sent)
  }

  lemma OwedForMore(wire: seq<Byte>, heard: seq<Byte>, sent: seq<Byte>)
    requires wire <= Answer(heard) && heard <= sent
    ensures Owed(wire, sent)
  {
    AnswerMonotone(heard, sent);
    FrontOfFront(wire, Answer(heard), Answer(sent));
  }

  // Each server, having received some front of what the client sent.

  lemma BlockingServerIsCorrect(
    heard: seq<Byte>, wire: seq<Byte>, answered: seq<Byte>, r: Option<BlockingServer.ServeResult>, sent: seq<Byte>)
    requires BlockingServer.Served(heard, wire, answered, r) && heard <= sent
    ensures Owed(wire, sent)
  {
    OwedForMore(wire, heard, sent);
  }

  lemma ParserIsCorrect(
    start: PeerRuns.Table, trace: seq<PeerRuns.Event>, fd: nat, sent: seq<Byte>)
    requires PeerRuns.IsRun(start, trace) && fd < |start| && PeerRuns.Opened(trace, fd)
    requires PeerRuns.Heard(trace, fd) <= sent
    ensures Owed(PeerRuns.Told(trace, fd), sent)
  {
    PeerRuns.ToldIsFront(start, trace, fd);
    OwedForMore(PeerRuns.Told(trace, fd), PeerRuns.Heard(trace, fd), sent);
  }

  lemma BooksAreCorrect(b: EventLoop.Books, fd: nat, sent: seq<Byte>)
    requires EventLoop.Sound(b) && fd in b.owner && PeerRuns.Heard(b.peers.trace, fd) <= sent
    ensures Owed(PeerRuns.Told(b.peers.trace, fd), sent)
  {
    EventLoop.HolderIsAnswered(b, fd);
    OwedForMore(PeerRuns.Told(b.peers.trace, fd), PeerRuns.Heard(b.peers.trace, fd), sent);
  }

  lemma SelectServerIsCorrect(
    run: seq<SelectServer.Loop>, listener: nat, k: nat, fd: nat, sent: seq<Byte>)
    requires SelectServer.IsRun(run, listener) && k < |run| && fd in run[k].books.owner
    requires PeerRuns.Heard(run[k].books.peers.trace, fd) <= sent
    ensures Owed(PeerRuns.Told(run[k].books.peers.trace, fd), sent)
  {
    assert EventLoop.GoodAt(run, k, SelectServer.Good);
    BooksAreCorrect(run[k].books, fd, sent);
  }

  lemma EpollServerIsCorrect(
    run: seq<EpollServer.Loop>, listener: nat, k: nat, fd: nat, sent: seq<Byte>)
    requires EpollServer.IsRun(run, listener) && k < |run| && fd in run[k].books.owner
    requires PeerRuns.Heard(run[k].books.peers.trace, fd) <= sent
    ensures Owed(PeerRuns.Told(run[k].books.peers.trace, fd), sent)
  {
    assert EventLoop.GoodAt(run, k, EpollServer.Good);
    BooksAreCorrect(run[k].books, fd, sent);
  }

  lemma UringServerIsCorrect(
    run: seq<UringServer.Ring>, listener: nat, k: nat, fd: nat, sent: seq<Byte>)
    requires FitsInt(listener) && UringServer.IsRun(run, listener) && k < |run| && fd in run[k].conns
    requires run[k].conns[fd].got <= sent
    ensures Owed(run[k].conns[fd].put, sent)
  {
    assert EventLoop.GoodAt(run, k, UringServer.Good);
    UringServer.OpenConnectionIsServed(run[k], fd);
    OwedForMore(run[k].conns[fd].put, run[k].conns[fd].got, sent);
  }

  // The client.  `incoming` is every byte that ever arrives from the server, whoever that is.

  /** recv on the client's side, after `pos` bytes: some of what comes next. */
  method RecvSome(want: nat, incoming: seq<Byte>, pos: nat) returns (r: RecvResult)
    requires pos <= |incoming|
    ensures MayReceive(r, want) && (r.Received? ==> r.data <= incoming[pos..])
  {
    assert MayReceive(EndOfStream, want);
    r :| MayReceive(r, want) && (r.Received? ==> r.data <= incoming[pos..]);
  }

  lemma NextPiece(incoming: seq<Byte>, pos: nat, got: seq<Byte>, data: seq<Byte>)
    requires pos <= |incoming| && got <= incoming[pos..] && data <= incoming[pos + |got|..]
    ensures got + data <= incoming[pos..]
  {
    assert incoming[pos..] == got + incoming[pos + |got|..];
  }

  /** Reads exactly the next `k` bytes, or fails having read fewer; `calls` bounds the calls observed. */
  method RecvExact(k: nat, incoming: seq<Byte>, pos: nat, calls: nat) returns (got: seq<Byte>, ok: bool)
    requires pos <= |incoming|
    ensures got <= incoming[pos..] && |got| <= k && (ok <==> |got| == k)
  {
    got := [];
    var left := calls;
    while |got| < k && left > 0
      invariant |got| <= k && got <= incoming[pos..]
      decreases left
    {
      left := left - 1;
      var r := RecvSome(k - |got|, incoming, pos + |got|);
      match r {
        case Received(data) =>
          NextPiece(incoming, pos, got, data);
          got := got + data;
        case EndOfStream =>
          return got, false;
        case RecvFailed(e) =>
          if !e.EIntr? {
            return got, false;
          }
      }
    }
    ok := |got| == k;
  }

  /** After `m` requests all their frames are out, and as much has come in as they call for. */
  ghost predicate InStep(sent: seq<Byte>, read: seq<Byte>, payload: seq<Byte>, m: nat) {
    sent == Frames(Repeat(payload, m)) && |read| == |Answer(sent)|
  }

  /** One request: its frame goes out, its reply comes in and is compared.  A request that fails
      has put a front of its frame on the wire and brought back less than its reply. */
  method Exchange(
    sent: seq<Byte>, read: seq<Byte>, incoming: seq<Byte>, request: seq<Byte>, expected: seq<Byte>, calls: nat,
    ghost payload: seq<Byte>, ghost m: nat)
    returns (sent': seq<Byte>, read': seq<Byte>, ok: bool, matched: bool)
    requires InStep(sent, read, payload, m) && CLOSE !in payload && payload != [] && read <= incoming
    requires request == Frame(payload) && expected == Incremented(payload)
    ensures sent <= sent' <= sent + request && read <= read' <= incoming && |read'| <= |read| + |expected|
    ensures ok <==> sent' == sent + request && |read'| == |read| + |expected|
    ensures ok ==> InStep(sent', read', payload, m + 1)
    ensures ok ==> (read' == Answer(sent') <==> read == Answer(sent) && matched)
  {
    var n, end := WriteAll(|request|, calls);
    sent', read', ok, matched := sent + request[..n], read, false, false;
    if end.Whole? {
      assert request[..n] == request;
      var got;
      got, ok := RecvExact(|expected|, incoming, |read|, calls);
      NextReply(payload, m);
      NextPiece(incoming, 0, read, got);
      if ok {
        PiecesAgree(read, got, Answer(sent), expected);
      }
      read', matched := read + got, got == expected;
    }
  }

  /** What a connection has shown: the frames of its completed requests and perhaps part of one
      more are out, and it counted no mismatch exactly if every byte the completed ones brought
      back is the byte it was owed. */
  ghost predicate Judged(o: Outcome, sent: seq<Byte>, read: seq<Byte>, payload: seq<Byte>) {
    var asked := Frames(Repeat(payload, o.completed));
    && asked <= sent <= asked + Frame(payload) && |Answer(asked)| <= |read|
    && (o.mismatches == 0 <==> Answer(asked) <= read)
  }

  lemma StillJudged(
    o: Outcome, sent: seq<Byte>, read: seq<Byte>, sent': seq<Byte>, read': seq<Byte>, payload: seq<Byte>)
    requires InStep(sent, read, payload, o.completed) && (o.mismatches == 0 <==> read == Answer(sent))
    requires sent <= sent' <= sent + Frame(payload) && read <= read'
    ensures Judged(o, sent', read', payload)
  {
    var owed := Answer(sent);
    assert owed <= read' ==> read == owed by {
      assert owed <= read' ==> read == read'[..|read|] == owed;
    }
  }

  /** Where the requests stand after the first `o.completed` of them, none having failed. */
  ghost predicate Tallied(o: Outcome, sent: seq<Byte>, read: seq<Byte>, payload: seq<Byte>) {
    && o.errors == 0 && o.mismatches <= o.completed && InStep(sent, read, payload, o.completed)
    && (o.mismatches == 0 <==> read == Answer(sent))
  }

  /** All requests of a connection, once acknowledged. */
  method Converse(
    messages: nat, incoming: seq<Byte>, request: seq<Byte>, expected: seq<Byte>, calls: nat, ghost payload: seq<Byte>)
    returns (o: Outcome, sent: seq<Byte>, read: seq<Byte>)
    requires CLOSE !in payload && payload != [] && [ACK] <= incoming
    requires request == Frame(payload) && expected == Incremented(payload)
    ensures Possible(o, messages) && Judged(o, sent, read, payload) && read <= incoming
  {
    o, sent, read := Outcome(0, 0, 0), [], [ACK];
    assert read == Answer([]);
    for m := 0 to messages
      invariant o.completed == m && Tallied(o, sent, read, payload) && read <= incoming
    {
      ghost var sentBefore, readBefore := sent, read;
      var ok, matched;
      sent, read, ok, matched := Exchange(sent, read, incoming, request, expected, calls, payload, m);
      if !ok {
        StillJudged(o, sentBefore, readBefore, sent, read, payload);
        return o.(errors := 1), sent, read;
      }
      o := o.(completed := o.completed + 1, mismatches := if matched then o.mismatches else o.mismatches + 1);
    }
    StillJudged(o, sent, read, sent, read, payload);
  }

  /** One connection.  Calls may fail anywhere.  `sent` and `read` are what went out after the
      acknowledgement and what came back, the acknowledgement included. */
  method ConnMain(n: nat, messages: nat, incoming: seq<Byte>, calls: nat)
    returns (o: Outcome, sent: seq<Byte>, read: seq<Byte>)
    requires 1 <= n <= MAX_PAYLOAD && messages >= 1
    ensures Possible(o, messages) && read <= incoming
    ensures o.completed > 0 ==> Judged(o, sent, read, Payload(n))
    ensures Owed(read, sent) ==> o.mismatches == 0
  {
    var connected: bool := *;
    var ack, ok := RecvExact(1, incoming, 0, calls);
    if !connected || !ok || ack[0] != ACK {
      return Outcome(0, messages, 0), [], ack;
    }
    var request, expected := BuildRequest(n);
    PayloadIsPlain(n);
    o, sent, read := Converse(messages, incoming, request, expected, calls, Payload(n));
    ghost var payload := Payload(n);
    assert Owed(read, sent) ==> o.mismatches == 0 by {
      if Owed(read, sent) {
        OwedIsMatched(o, sent, read, payload);
      }
    }
  }

  // ------------------------------------------------------------------ client and server

  /** A client that has read nothing but what it is owed has counted no mismatch. */
  lemma OwedIsMatched(o: Outcome, sent: seq<Byte>, read: seq<Byte>, payload: seq<Byte>)
    requires Judged(o, sent, read, payload) && Owed(read, sent)
    ensures o.mismatches == 0
  {
    var asked := Frames(Repeat(payload, o.completed));
    AnswerMonotone(asked, sent);
    FrontsCompare(Answer(asked), read, Answer(sent));
  }

  /** What the transport is trusted with: either side receives, in order, a front of what the
      other has put on the wire. */
  ghost predicate Transport(sent: seq<Byte>, heard: seq<Byte>, wire: seq<Byte>, read: seq<Byte>) {
    heard <= sent && read <= wire
  }

  lemma NeverAccused(
    o: Outcome, sent: seq<Byte>, heard: seq<Byte>, wire: seq<Byte>, read: seq<Byte>, payload: seq<Byte>)
    requires Judged(o, sent, read, payload) && Transport(sent, heard, wire, read) && Owed(wire, sent)
    ensures o.mismatches == 0
  {
    FrontOfFront(read, wire, Answer(sent));
    OwedIsMatched(o, sent, read, payload);
  }

  /** The client of each server, over a transport that can be trusted: no mismatch, whatever its
      payload, however many requests it completed and however either side's calls were split. */
  lemma ClientOfBlockingServer(
    o: Outcome, sent: seq<Byte>, read: seq<Byte>, payload: seq<Byte>,
    heard: seq<Byte>, wire: seq<Byte>, answered: seq<Byte>, r: Option<BlockingServer.ServeResult>)
    requires Judged(o, sent, read, payload) && Transport(sent, heard, wire, read)
    requires BlockingServer.Served(heard, wire, answered, r)
    ensures o.mismatches == 0
  {
    BlockingServerIsCorrect(heard, wire, answered, r, sent);
    NeverAccused(o, sent, heard, wire, read, payload);
  }

  lemma ClientOfSelectServer(
    o: Outcome, sent: seq<Byte>, read: seq<Byte>, payload: seq<Byte>,
    run: seq<SelectServer.Loop>, listener: nat, k: nat, fd: nat)
    requires Judged(o, sent, read, payload)
    requires SelectServer.IsRun(run, listener) && k < |run| && fd in run[k].books.owner
    requires var trace := run[k].books.peers.trace;
             Transport(sent, PeerRuns.Heard(trace, fd), PeerRuns.Told(trace, fd), read)
    ensures o.mismatches == 0
  {
    var trace := run[k].books.peers.trace;
    SelectServerIsCorrect(run, listener, k, fd, sent);
    NeverAccused(o, sent, PeerRuns.Heard(trace, fd), PeerRuns.Told(trace, fd), read, payload);
  }

  lemma ClientOfEpollServer(
    o: Outcome, sent: seq<Byte>, read: seq<Byte>, payload: seq<Byte>,
    run: seq<EpollServer.Loop>, listener: nat, k: nat, fd: nat)
    requires Judged(o, sent, read, payload)
    requires EpollServer.IsRun(run, listener) && k < |run| && fd in run[k].books.owner
    requires var trace := run[k].books.peers.trace;
             Transport(sent, PeerRuns.Heard(trace, fd), PeerRuns.Told(trace, fd), read)
    ensures o.mismatches == 0
  {
    var trace := run[k].books.peers.trace;
    EpollServerIsCorrect(run, listener, k, fd, sent);
    NeverAccused(o, sent, PeerRuns.Heard(trace, fd), PeerRuns.Told(trace, fd), read, payload);
  }

  lemma ClientOfUringServer(
    o: Outcome, sent: seq<Byte>, read: seq<Byte>, payload: seq<Byte>,
    run: seq<UringServer.Ring>, listener: nat, k: nat, fd: nat)
    requires Judged(o, sent, read, payload)
    requires FitsInt(listener) && UringServer.IsRun(run, listener) && k < |run| && fd in run[k].conns
    requires Transport(sent, run[k].conns[fd].got, run[k].conns[fd].put, read)
    ensures o.mismatches == 0
  {
    UringServerIsCorrect(run, listener, k, fd, sent);
    NeverAccused(o, sent, run[k].conns[fd].got, run[k].conns[fd].put, read, payload);
  }

  // ---------------------------------------------------------------------- the verdict

  function Errors(os: seq<Outcome>): nat {
    if os == [] then 0 else Errors(os[..|os| - 1]) + os[|os| - 1].errors
  }

  function Mismatches(os: seq<Outcome>): nat {
    if os == [] then 0 else Mismatches(os[..|os| - 1]) + os[|os| - 1].mismatches
  }

  function ExitCode(os: seq<Outcome>): int {
    if WrapInt(Errors(os)) > 0 || WrapInt(Mismatches(os)) > 0 then 1 else 0
  }

  method Verdict(os: seq<Outcome>) returns (exit: int)
    ensures exit == ExitCode(os)
  {
    var errors, mismatches := 0, 0;
    for i := 0 to |os|
      invariant errors == WrapInt(Errors(os[..i])) && mismatches == WrapInt(Mismatches(os[..i]))
    {
      assert os[..i + 1][..i] == os[..i];
      WrapStep(Errors(os[..i]), os[i].errors);
      WrapStep(Mismatches(os[..i]), os[i].mismatches);
      errors := WrapInt(errors + os[i].errors);
      mismatches := WrapInt(mismatches + os[i].mismatches);
    }
    assert os[..|os|] == os;
    exit := if errors > 0 || mismatches > 0 then 1 else 0;
  }

  /** Every request of every connection completed and matched. */
  ghost predicate AllGood(os: seq<Outcome>, messages: nat) {
    forall i :: 0 <= i < |os| ==> os[i].completed == messages && os[i].mismatches == 0
  }

  ghost predicate Plausible(os: seq<Outcome>, connections: nat, messages: nat) {
    |os| == connections && forall i :: 0 <= i < |os| ==> Possible(os[i], messages)
  }

  lemma {:induction false} SumsBounded(os: seq<Outcome>, messages: nat)
    requires messages >= 1 && forall i :: 0 <= i < |os| ==> Possible(os[i], messages)
    ensures Errors(os) <= |os| * messages && Mismatches(os) <= |os| * messages
  {
    if os != [] {
      var front := os[..|os| - 1];
      SumsBounded(front, messages);
      assert Possible(os[|os| - 1], messages);
      assert |os| * messages == |front| * messages + messages;
    }
  }

  lemma {:induction false} ZeroSums(os: seq<Outcome>, messages: nat)
    requires forall i :: 0 <= i < |os| ==> Possible(os[i], messages)
    ensures Errors(os) == 0 && Mismatches(os) == 0 <==> AllGood(os, messages)
  {
    if os != [] {
      var front, last := os[..|os| - 1], os[|os| - 1];
      ZeroSums(front, messages);
      assert Possible(last, messages);
      assert AllGood(os, messages) ==> AllGood(front, messages);
      assert forall i :: 0 <= i < |front| ==> os[i] == front[i];
    }
  }

  lemma VerdictSound(os: seq<Outcome>, connections: nat, messages: nat)
    requires messages >= 1 && connections * messages < 0x8000_0000 && Plausible(os, connections, messages)
    ensures ExitCode(os) == 0 <==> AllGood(os, messages)
  {
    SumsBounded(os, messages);
    ZeroSums(os, messages);
  }

  /** The first `k` of `connections` fail outright, the others do everything. */
  function SomeFail(connections: nat, k: nat, messages: nat): seq<Outcome> {
    seq(connections, i => if i < k then Outcome(0, messages, 0) else Outcome(messages, 0, 0))
  }

  lemma {:induction false} SomeFailSums(connections: nat, k: nat, messages: nat)
    requires k <= connections
    ensures Errors(SomeFail(connections, k, messages)) == k * messages
    ensures Mismatches(SomeFail(connections, k, messages)) == 0
  {
    if connections > 0 {
      var os := SomeFail(connections, k, messages);
      if k < connections {
        assert os[..|os| - 1] == SomeFail(connections - 1, k, messages);
        SomeFailSums(connections - 1, k, messages);
      } else {
        assert os[..|os| - 1] == SomeFail(connections - 1, k - 1, messages);
        SomeFailSums(connections - 1, k - 1, messages);
        assert k * messages == (k - 1) * messages + messages;
      }
    }
  }

  /** How many failing connections it takes for the error count to look negative. */
  lemma {:induction false} FirstOverflow(connections: nat, messages: nat) returns (k: nat)
    requires 1 <= messages < 0x8000_0000 && connections * messages >= 0x8000_0000
    ensures 1 <= k <= connections && 0x8000_0000 <= k * messages < 0x1_0000_0000
  {
    if connections * messages < 0x1_0000_0000 {
      k := connections;
    } else {
      assert (connections - 1) * messages == connections * messages - messages;
      k := FirstOverflow(connections - 1, messages);
    }
  }

  lemma VerdictFooled(connections: nat, messages: nat) returns (os: seq<Outcome>)
    requires 1 <= messages < 0x8000_0000 && connections * messages >= 0x8000_0000
    ensures Plausible(os, connections, messages) && ExitCode(os) == 0 && !AllGood(os, messages)
  {
    var k := FirstOverflow(connections, messages);
    os := SomeFail(connections, k, messages);
    SomeFailSums(connections, k, messages);
    assert os[0] == Outcome(0, messages, 0);
  }

  /** The exit code tells a good run from a bad one, whatever happens in it, exactly when the
      total number of requests asked for fits an int. */
  lemma VerdictExact(connections: nat, messages: nat)
    requires 1 <= messages < 0x8000_0000
    ensures (forall os :: Plausible(os, connections, messages) ==> (ExitCode(os) == 0 <==> AllGood(os, messages)))
            <==> connections * messages < 0x8000_0000
  {
    if connections * messages < 0x8000_0000 {
      forall os | Plausible(os, connections, messages)
        ensures ExitCode(os) == 0 <==> AllGood(os, messages)
      {
        VerdictSound(os, connections, messages);
      }
    } else {
      var os := VerdictFooled(connections, messages);
    }
  }

  // -------------------------------------------------------------------- percentiles

  ghost predicate Sorted(s: seq<real>) {
    forall i, j :: 0 <= i <= j < |s| ==> s[i] <= s[j]
  }

  /** The value at a fractional position, between the two samples around it. */
  function At(s: seq<real>, x: real): real
    requires s != [] && 0.0 <= x <= (|s| - 1) as real
  {
    var lo := x.Floor;
    var hi := if lo + 1 >= |s| then |s| - 1 else lo + 1;
    var frac := x - lo as real;
    s[lo] * (1.0 - frac) + s[hi] * frac
  }

  function Position(n: nat, p: real): real
    requires n > 0
  {
    p / 100.0 * (n - 1) as real
  }

  lemma PositionInRange(n: nat, p: real)
    requires n > 0 && 0.0 <= p <= 100.0
    ensures 0.0 <= Position(n, p) <= (n - 1) as real
  {
    var f, m := p / 100.0, (n - 1) as real;
    assert 0.0 <= f <= 1.0;
    assert f * m <= 1.0 * m;
  }

  function Percentile(s: seq<real>, p: real): real
    requires 0.0 <= p <= 100.0
  {
    if s == [] then 0.0
    else
      PositionInRange(|s|, p);
      At(s, Position(|s|, p))
  }

  lemma NonNegative(x: real, y: real)
    requires x >= 0.0 && y >= 0.0
    ensures x * y >= 0.0
  {
  }

  lemma Distribute(x: real, y: real, z: real)
    ensures x * (y + z) == x * y + x * z
  {
  }

  lemma Spread(a: real, b: real, f: real)
    ensures a * (1.0 - f) + b * f == a + (b - a) * f
  {
    assert a * (1.0 - f) == a - a * f;
    assert (b - a) * f == b * f - a * f;
  }

  /** Between two numbers, the mix is between them and moves with the weight. */
  lemma Mix(a: real, b: real, f: real, g: real)
    requires a <= b && 0.0 <= f <= g <= 1.0
    ensures a <= a * (1.0 - f) + b * f <= a * (1.0 - g) + b * g <= b
  {
    Spread(a, b, f);
    Spread(a, b, g);
    NonNegative(b - a, f);
    NonNegative(b - a, g - f);
    NonNegative(b - a, 1.0 - g);
    Distribute(b - a, f, g - f);
    Distribute(b - a, g, 1.0 - g);
  }

  lemma AtBetween(s: seq<real>, x: real)
    requires s != [] && Sorted(s) && 0.0 <= x <= (|s| - 1) as real
    ensures s[x.Floor] <= At(s, x) <= s[|s| - 1]
    ensures x.Floor + 1 < |s| ==> At(s, x) <= s[x.Floor + 1]
  {
    var lo := x.Floor;
    var hi := if lo + 1 >= |s| then |s| - 1 else lo + 1;
    Mix(s[lo], s[hi], x - lo as real, x - lo as real);
  }

  lemma AtMonotone(s: seq<real>, x: real, y: real)
    requires s != [] && Sorted(s) && 0.0 <= x <= y <= (|s| - 1) as real
    ensures At(s, x) <= At(s, y)
  {
    if x.Floor == y.Floor {
      var lo := x.Floor;
      var hi := if lo + 1 >= |s| then |s| - 1 else lo + 1;
      Mix(s[lo], s[hi], x - lo as real, y - lo as real);
    } else {
      AtBetween(s, x);
      AtBetween(s, y);
    }
  }

  /** Higher percentiles are never lower, and none leaves the range of the samples. */
  lemma PercentileMonotone(s: seq<real>, p: real, q: real)
    requires s != [] && Sorted(s) && 0.0 <= p <= q <= 100.0
    ensures s[0] <= Percentile(s, p) <= Percentile(s, q) <= s[|s| - 1]
  {
    var n := |s|;
    PositionInRange(n, p);
    PositionInRange(n, q);
    assert Position(n, p) <= Position(n, q) by {
      assert p / 100.0 <= q / 100.0;
      assert p / 100.0 * (n - 1) as real <= q / 100.0 * (n - 1) as real;
    }
    AtBetween(s, Position(n, p));
    AtBetween(s, Position(n, q));
    AtMonotone(s, Position(n, p), Position(n, q));
  }

  lemma AtSample(s: seq<real>, k: nat)
    requires k < |s|
    ensures At(s, k as real) == s[k]
  {
    assert (k as real).Floor == k;
  }

  /** The extremes are the first and the last sample. */
  lemma PercentileEnds(s: seq<real>)
    requires s != []
    ensures Percentile(s, 0.0) == s[0] && Percentile(s, 100.0) == s[|s| - 1]
  {
    AtSample(s, 0);
    AtSample(s, |s| - 1);
    assert Position(|s|, 0.0) == 0.0 == 0 as real;
    assert Position(|s|, 100.0) == (|s| - 1) as real;
  }

  /** What the report prints is in order. */
  lemma ReportOrdered(s: seq<real>)
    requires s != [] && Sorted(s)
    ensures Percentile(s, 50.0) <= Percentile(s, 90.0) <= Percentile(s, 99.0) <= Percentile(s, 99.9) <= s[|s| - 1]
  {
    PercentileMonotone(s, 50.0, 90.0);
    PercentileMonotone(s, 90.0, 99.0);
    PercentileMonotone(s, 99.0, 99.9);
  }
}
