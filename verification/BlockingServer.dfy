/** The blocking server: one thread per connection, transforming each received
    buffer in place and sending it back whole. */
module BlockingServer {
  import opened Framing
  import opened Kernel
  import opened Words
  import PeerState
  import PeerRuns

  const RECVBUF_SIZE: nat := 1024

  datatype ServeResult = ServeOk | ServePeerReset | ServeIoError

  /** `Cut` ends the observation of a run, not the run: contracts hold for every
      number of system calls observed. */
  datatype CallResult = Done(n: nat) | Failed(errno: Errno) | Cut

  /** One accepted connection, with everything that crossed it in either direction. */
  class Connection {
    var callsLeft: nat
    ghost var heard: seq<Byte>
    ghost var wire: seq<Byte>
    ghost var buffers: nat
    ghost var lastError: Option<Errno>

    constructor (calls: nat)
      ensures heard == [] && wire == [] && buffers == 0 && callsLeft == calls
    {
      callsLeft, heard, wire, buffers, lastError := calls, [], [], 0, None;
    }

    method RecvInto(buf: array<Byte>) returns (r: CallResult)
      modifies this`callsLeft, this`heard, this`buffers, this`lastError, buf
      ensures r.Cut? || callsLeft < old(callsLeft)
      ensures callsLeft <= old(callsLeft)
      ensures r.Done? ==> r.n <= buf.Length && heard == old(heard) + buf[..r.n]
      ensures !r.Done? ==> heard == old(heard)
      ensures buffers == old(buffers) + if r.Done? && r.n > 0 then 1 else 0
      ensures r.Failed? ==> lastError == Some(r.errno)
    {
      if callsLeft == 0 {
        return Cut;
      }
      callsLeft := callsLeft - 1;
      var got := Recv(buf.Length);
      match got {
        case EndOfStream =>
          r := Done(0);
        case RecvFailed(e) =>
          lastError := Some(e);
          r := Failed(e);
        case Received(data) =>
          forall i | 0 <= i < |data| {
            buf[i] := data[i];
          }
          heard, buffers := heard + data, buffers + 1;
          assert buf[..|data|] == data;
          r := Done(|data|);
      }
    }

    method SendFrom(buf: array<Byte>, from: nat, to: nat) returns (r: CallResult)
      requires from <= to <= buf.Length
      modifies this`callsLeft, this`wire, this`lastError
      ensures r.Cut? || callsLeft < old(callsLeft)
      ensures callsLeft <= old(callsLeft)
      ensures r.Done? ==> from + r.n <= to && wire == old(wire) + buf[from..from + r.n]
      ensures !r.Done? ==> wire == old(wire)
      ensures r.Failed? ==> lastError == Some(r.errno)
    {
      if callsLeft == 0 {
        return Cut;
      }
      callsLeft := callsLeft - 1;
      var result := Kernel.Send(to - from);
      match result {
        case SendFailed(e) =>
          lastError := Some(e);
          r := Failed(e);
        case Wrote(n) =>
          wire := wire + buf[from..from + n];
          r := Done(n);
      }
    }
  }

  /** Either everything is on the wire, or a front of it is. */
  method SendAll(conn: Connection, buf: array<Byte>, len: nat) returns (r: CallResult)
    requires len <= buf.Length
    modifies conn`callsLeft, conn`wire, conn`lastError
    ensures conn.callsLeft <= old(conn.callsLeft)
    ensures r.Done? ==> conn.wire == old(conn.wire) + buf[..len]
    ensures old(conn.wire) <= conn.wire <= old(conn.wire) + buf[..len]
    ensures r.Failed? ==> !r.errno.EIntr? && conn.lastError == Some(r.errno)
  {
    var sent := 0;
    while sent < len
      invariant sent <= len && conn.callsLeft <= old(conn.callsLeft)
      invariant conn.wire == old(conn.wire) + buf[..sent]
      decreases conn.callsLeft
    {
      r := conn.SendFrom(buf, sent, len);
      match r {
        case Cut =>
          return;
        case Failed(e) =>
          if !e.EIntr? {
            return;
          }
        case Done(n) =>
          sent := sent + n;
      }
    }
    r := Done(len);
  }

  /** One turn of the switch at index `i`, with `nsend` bytes of output already in front. */
  method TransformByte(buf: array<Byte>, i: nat, nsend: nat, start: FrameState) returns (n: nat, state: FrameState)
    requires nsend <= i < buf.Length
    modifies buf
    ensures nsend <= n <= nsend + 1 && state == Next(start, old(buf[i]))
    ensures buf[..n] == old(buf[..nsend]) + Emit(start, old(buf[i]))
    ensures forall k :: i < k < buf.Length ==> buf[k] == old(buf[k])
  {
    n, state := nsend, start;
    var c := buf[i];
    match state {
      case WaitForMsg =>
        if c == OPEN {
          state := InMsg;
        }
      case InMsg =>
        if c == CLOSE {
          state := WaitForMsg;
        } else {
          buf[nsend] := Increment(c);
          n := nsend + 1;
          assert buf[..n] == old(buf[..nsend]) + [Increment(c)];
        }
    }
  }

  /** The output overwrites the input it came from and never catches up with it. */
  method TransformInPlace(buf: array<Byte>, len: nat, start: FrameState) returns (nsend: nat, state: FrameState)
    requires len <= buf.Length
    modifies buf
    ensures nsend <= len
    ensures buf[..nsend] == Echo(start, old(buf[..len]))
    ensures state == After(start, old(buf[..len]))
  {
    ghost var input := buf[..len];
    nsend, state := 0, start;
    for i := 0 to len
      invariant nsend <= i
      invariant buf[..nsend] == Echo(start, input[..i])
      invariant state == After(start, input[..i])
      invariant forall k :: i <= k < len ==> buf[k] == input[k]
    {
      EchoStep(start, input, i);
      nsend, state := TransformByte(buf, i, nsend, state);
    }
    assert input[..len] == input;
  }

  /** Answers the buffer just received; `answered` is the input before it. */
  method AnswerBuffer(conn: Connection, buf: array<Byte>, len: nat, start: FrameState, ghost answered: seq<Byte>)
    returns (sent: CallResult, state: FrameState)
    requires 0 < len <= buf.Length && conn.heard == answered + buf[..len]
    requires conn.wire == Answer(answered) && start == After(WaitForMsg, answered)
    modifies conn`callsLeft, conn`wire, conn`lastError, buf
    ensures conn.callsLeft <= old(conn.callsLeft)
    ensures Answer(answered) <= conn.wire <= Answer(conn.heard)
    ensures sent.Done? ==> conn.wire == Answer(conn.heard) && state == After(WaitForMsg, conn.heard)
    ensures sent.Failed? ==> !sent.errno.EIntr? && conn.lastError == Some(sent.errno)
  {
    AnswerConcat(answered, buf[..len]);
    AfterConcat(WaitForMsg, answered, buf[..len]);
    var nsend;
    nsend, state := TransformInPlace(buf, len, start);
    sent := Done(0);
    if nsend > 0 {
      sent := SendAll(conn, buf, nsend);
    }
  }

  function Classify(errno: Errno): ServeResult {
    if errno.EConnReset? || errno.EPipe? || errno.ETimedOut? then ServePeerReset else ServeIoError
  }

  /** What a served connection has put on the wire: the front of the right answer, all
      of it if the peer closed, and never more than one buffer behind. */
  ghost predicate Served(heard: seq<Byte>, wire: seq<Byte>, answered: seq<Byte>, r: Option<ServeResult>) {
    && wire <= Answer(heard)
    && (r == Some(ServeOk) ==> wire == Answer(heard))
    && answered <= heard && |heard| - |answered| <= RECVBUF_SIZE
    && (heard != [] ==> Answer(answered) <= wire)
  }

  /** The result given for an error is that of the last error met, which was no interruption. */
  ghost predicate Explained(r: Option<ServeResult>, lastError: Option<Errno>) {
    r.Some? && r.value != ServeOk ==> lastError.Some? && !lastError.value.EIntr? && r.value == Classify(lastError.value)
  }

  /** Serves one connection.  `answered` is the input whose answer has gone out in full
      and `observed` the number of requests reported to the latency histogram: one for each
      buffer received and answered. */
  method ServeConnection(conn: Connection)
    returns (r: Option<ServeResult>, observed: nat, ghost answered: seq<Byte>)
    requires conn.heard == [] && conn.wire == [] && conn.buffers == 0
    modifies conn
    ensures Served(conn.heard, conn.wire, answered, r) && Explained(r, conn.lastError)
    ensures observed == conn.buffers - if answered == conn.heard then 0 else 1
    ensures r != Some(ServeOk) || answered == conn.heard
  {
    observed, answered := 0, [];
    var ack := new Byte[1](_ => ACK);
    assert ack[..1] == Answer([]);
    var sent := SendAll(conn, ack, 1);
    if !sent.Done? {
      return if sent.Cut? then None else Some(Classify(sent.errno)), 0, [];
    }
    var state := WaitForMsg;
    while true
      invariant conn.wire == Answer(conn.heard) && answered == conn.heard
      invariant state == After(WaitForMsg, conn.heard)
      invariant observed == conn.buffers
      decreases conn.callsLeft
    {
      var recvbuf := new Byte[RECVBUF_SIZE];
      var got := conn.RecvInto(recvbuf);
      match got {
        case Cut =>
          return None, observed, answered;
        case Failed(e) =>
          if e.EIntr? {
            continue;
          }
          return Some(Classify(e)), observed, answered;
        case Done(len) =>
          if len == 0 {
            assert recvbuf[..0] == [] && conn.heard == answered;
            return Some(ServeOk), observed, answered;
          }
          var nextState;
          sent, nextState := AnswerBuffer(conn, recvbuf, len, state, answered);
          if !sent.Done? {
            return if sent.Cut? then None else Some(Classify(sent.errno)), observed, answered;
          }
          state := nextState;
          observed, answered := observed + 1, conn.heard;
      }
    }
  }

  // -------------------------------------------------------- interchangeability

  /** Fed one input stream, the blocking server and the event-driven parser put fronts
      of the same output on the wire, however reads and writes were split and wherever
      either run stopped.  Having heard the same and with nothing left to send, they
      have sent the same bytes. */
  lemma Interchangeable(
    input: seq<Byte>, heard: seq<Byte>, wire: seq<Byte>, answered: seq<Byte>, r: Option<ServeResult>,
    start: PeerRuns.Table, trace: seq<PeerRuns.Event>, fd: nat)
    requires Served(heard, wire, answered, r) && heard <= input
    requires PeerRuns.IsRun(start, trace) && fd < |start| && PeerRuns.Opened(trace, fd)
    requires PeerRuns.Heard(trace, fd) <= input
    ensures wire <= Answer(input) && PeerRuns.Told(trace, fd) <= Answer(input)
    ensures PeerRuns.Told(trace, fd) <= wire || wire <= PeerRuns.Told(trace, fd)
    ensures r == Some(ServeOk) && PeerRuns.Heard(trace, fd) == heard
            && PeerState.Pending(PeerRuns.Run(start, trace)[fd]) == []
            ==> PeerRuns.Told(trace, fd) == wire
  {
    var told, toldFor := PeerRuns.Told(trace, fd), PeerRuns.Heard(trace, fd);
    assert told <= Answer(input) by {
      PeerRuns.ToldIsFront(start, trace, fd);
      AnswerMonotone(toldFor, input);
      FrontOfFront(told, Answer(toldFor), Answer(input));
    }
    assert wire <= Answer(input) by {
      AnswerMonotone(heard, input);
      FrontOfFront(wire, Answer(heard), Answer(input));
    }
    FrontsCompare(told, wire, Answer(input));
    PeerRuns.ToldIsFront(start, trace, fd);
  }
}
