/** The per-descriptor parser behind select, epoll and io_uring.

  `PeerValue` is one entry of the table as a value, with a function for each
  operation; class `Peer` holds the entry in memory, its staging buffer an array
  written in place, and every method is proved against the matching function.
*/
module PeerState {
  import opened Framing
  import opened Kernel

  const SENDBUF_SIZE: nat := 1024

  /** What the event loop should watch next; neither means the connection is over. */
  datatype Status = Status(wantRead: bool, wantWrite: bool)

  const STATUS_R := Status(true, false)
  const STATUS_W := Status(false, true)
  const STATUS_RW := Status(true, true)
  const STATUS_NORW := Status(false, false)

  datatype Reason = PeerClosed | PeerReset | OsError(errno: Errno) | RoomExceeded | ConsumeInAck

  /** The reasons that would blame this program rather than the peer. */
  predicate Internal(reason: Option<Reason>) {
    reason == Some(RoomExceeded) || reason == Some(ConsumeInAck)
  }

  /** INITIAL_ACK, or one of the two framing states. */
  datatype Phase = InitialAck | Parsing(frame: FrameState)

  /** `staged` is the valid part of the staging buffer, `ptr` the next byte to write. */
  datatype PeerRecord = PeerRecord(phase: Phase, staged: seq<Byte>, ptr: nat, reason: Option<Reason>)

  type PeerValue = p: PeerRecord | p.ptr <= |p.staged| <= SENDBUF_SIZE
    witness PeerRecord(InitialAck, [], 0, None)

  datatype Outcome = Outcome(peer: PeerValue, status: Status)

  function Closing(p: PeerValue, reason: Reason): Outcome {
    Outcome(p.(reason := Some(reason)), STATUS_NORW)
  }

  function Connected(): Outcome {
    Outcome(PeerRecord(InitialAck, [ACK], 0, None), STATUS_W)
  }

  function Pending(p: PeerValue): seq<Byte> {
    if p.ptr == 0 then p.staged else p.staged[p.ptr..]
  }

  function Room(p: PeerValue): nat {
    if p.phase.InitialAck? || p.ptr < |p.staged| then 0 else SENDBUF_SIZE - |p.staged|
  }

  function Consumed(p: PeerValue, data: seq<Byte>): Outcome {
    if |data| > Room(p) then Closing(p, RoomExceeded)
    else if data == [] then Outcome(p, STATUS_R)
    else
      var out := Echo(p.phase.frame, data);
      EchoNoLonger(p.phase.frame, data);
      Outcome(p.(phase := Parsing(After(p.phase.frame, data)), staged := p.staged + out),
              Status(out == [], out != []))
  }

  function Sent(p: PeerValue, n: nat): Outcome {
    if p.ptr + n < |p.staged| then Outcome(p.(ptr := p.ptr + n), STATUS_W)
    else Outcome(PeerRecord(if p.phase.InitialAck? then Parsing(WaitForMsg) else p.phase, [], 0, p.reason), STATUS_R)
  }

  function ReadyRecv(p: PeerValue, r: RecvResult): Outcome {
    if Room(p) == 0 then Outcome(p, STATUS_W)
    else match r
      case EndOfStream => Closing(p, PeerClosed)
      case RecvFailed(e) =>
        if e.EIntr? || e.EAgain? then Outcome(p, STATUS_R)
        else Closing(p, if e.EConnReset? then PeerReset else OsError(e))
      case Received(data) => Consumed(p, data)
  }

  function ReadySend(p: PeerValue, r: SendResult): Outcome {
    if Pending(p) == [] then Outcome(p, STATUS_RW)
    else match r
      case SendFailed(e) =>
        if e.EIntr? || e.EAgain? then Outcome(p, STATUS_W)
        else Closing(p, if e.EConnReset? || e.EPipe? then PeerReset else OsError(e))
      case Wrote(n) => Sent(p, n)
  }

  // ---------------------------------------------------------------- in memory

  class Peer {
    var phase: Phase
    const sendbuf: array<Byte>
    var sendbufEnd: nat
    var sendptr: nat
    var closeReason: Option<Reason>

    ghost predicate Valid()
      reads this
    {
      sendbuf.Length == SENDBUF_SIZE && sendptr <= sendbufEnd <= SENDBUF_SIZE
    }

    ghost function Value(): PeerValue
      requires Valid()
      reads this, sendbuf
    {
      PeerRecord(phase, sendbuf[..sendbufEnd], sendptr, closeReason)
    }

    constructor ()
      ensures Valid() && fresh(sendbuf) && Value() == PeerRecord(InitialAck, [], 0, None)
    {
      phase, sendbufEnd, sendptr, closeReason := InitialAck, 0, 0, None;
      sendbuf := new Byte[SENDBUF_SIZE];
    }

    method CloseWith(reason: Reason) returns (status: Status)
      requires Valid()
      modifies this`closeReason
      ensures Valid() && Outcome(Value(), status) == Closing(old(Value()), reason)
    {
      closeReason := Some(reason);
      status := STATUS_NORW;
    }

    /** Whatever the previous owner of the descriptor left behind is gone. */
    method OnConnected() returns (status: Status)
      requires Valid()
      modifies this, sendbuf
      ensures Valid() && Outcome(Value(), status) == Connected()
    {
      phase := InitialAck;
      sendbuf[0] := ACK;
      sendptr := 0;
      sendbufEnd := 1;
      closeReason := None;
      assert sendbuf[..1] == [ACK];
      status := STATUS_W;
    }

    function RecvRoom(): (room: nat)
      requires Valid()
      reads this, sendbuf
      ensures room == Room(Value())
    {
      if phase.InitialAck? || sendptr < sendbufEnd then 0 else SENDBUF_SIZE - sendbufEnd
    }

    /** One turn of the parser's switch. */
    method ConsumeByte(b: Byte) returns (produced: bool)
      requires Valid() && phase.Parsing? && sendbufEnd < SENDBUF_SIZE
      modifies this`phase, this`sendbufEnd, sendbuf
      ensures Valid() && phase == Parsing(Next(old(phase).frame, b))
      ensures sendbuf[..sendbufEnd] == old(sendbuf[..sendbufEnd]) + Emit(old(phase).frame, b)
      ensures sendbufEnd <= old(sendbufEnd) + 1
      ensures produced <==> Emit(old(phase).frame, b) != []
    {
      produced := false;
      match phase {
        case InitialAck =>
          assert false;
        case Parsing(WaitForMsg) =>
          if b == OPEN {
            phase := Parsing(InMsg);
          }
        case Parsing(InMsg) =>
          if b == CLOSE {
            phase := Parsing(WaitForMsg);
          } else {
            sendbuf[sendbufEnd] := Increment(b);
            sendbufEnd := sendbufEnd + 1;
            produced := true;
          }
      }
    }

    /** The parser's loop.  No bounds check guards the buffer write, and none is needed. */
    method ConsumeAll(data: seq<Byte>) returns (readyToSend: bool)
      requires Valid() && phase.Parsing? && sendbufEnd + |data| <= SENDBUF_SIZE
      modifies this`phase, this`sendbufEnd, sendbuf
      ensures Valid() && phase == Parsing(After(old(phase).frame, data))
      ensures sendbuf[..sendbufEnd] == old(sendbuf[..sendbufEnd]) + Echo(old(phase).frame, data)
      ensures readyToSend <==> Echo(old(phase).frame, data) != []
    {
      ghost var staged, start := sendbuf[..sendbufEnd], phase.frame;
      readyToSend := false;
      for i := 0 to |data|
        invariant Valid() && sendbufEnd <= |staged| + i
        invariant phase == Parsing(After(start, data[..i]))
        invariant sendbuf[..sendbufEnd] == staged + Echo(start, data[..i])
        invariant readyToSend <==> Echo(start, data[..i]) != []
      {
        EchoStepBehind(staged, start, data, i);
        var produced := ConsumeByte(data[i]);
        readyToSend := readyToSend || produced;
      }
      assert data[..|data|] == data;
    }

    method Consume(data: seq<Byte>) returns (status: Status)
      requires Valid()
      modifies this, sendbuf
      ensures Valid() && Outcome(Value(), status) == Consumed(old(Value()), data)
    {
      if |data| > RecvRoom() {
        status := CloseWith(RoomExceeded);
        return;
      }
      if data == [] {
        return STATUS_R;
      }
      var readyToSend := ConsumeAll(data);
      status := Status(!readyToSend, readyToSend);
    }

    method GetPending() returns (out: seq<Byte>)
      requires Valid()
      ensures out == Pending(Value())
    {
      out := sendbuf[sendptr..sendbufEnd];
    }

    method MarkSent(n: nat) returns (status: Status)
      requires Valid()
      modifies this
      ensures Valid() && Outcome(Value(), status) == Sent(old(Value()), n)
    {
      if sendptr + n < sendbufEnd {
        sendptr := sendptr + n;
        return STATUS_W;
      }
      sendptr := 0;
      sendbufEnd := 0;
      if phase == InitialAck {
        phase := Parsing(WaitForMsg);
      }
      status := STATUS_R;
    }

    method OnReadyRecv() returns (status: Status, ghost r: RecvResult)
      requires Valid()
      modifies this, sendbuf
      ensures Valid() && Outcome(Value(), status) == ReadyRecv(old(Value()), r)
      ensures r.Received? ==> 0 < |r.data| <= Room(old(Value()))
    {
      r := EndOfStream;
      var room := RecvRoom();
      if room == 0 {
        return STATUS_W, r;
      }
      var want := if room < SENDBUF_SIZE then room else SENDBUF_SIZE;
      var got := Recv(want);
      r := got;
      match got {
        case EndOfStream =>
          status := CloseWith(PeerClosed);
        case RecvFailed(e) =>
          if e.EIntr? || e.EAgain? {
            return STATUS_R, r;
          }
          status := CloseWith(if e.EConnReset? then PeerReset else OsError(e));
        case Received(data) =>
          status := Consume(data);
      }
    }

    method OnReadySend() returns (status: Status, ghost r: SendResult)
      requires Valid()
      modifies this
      ensures Valid() && Outcome(Value(), status) == ReadySend(old(Value()), r)
      ensures r.Wrote? ==> r.n <= |Pending(old(Value()))|
    {
      var out := GetPending();
      if |out| == 0 {
        return STATUS_RW, Wrote(0);
      }
      var result := Send(|out|);
      r := result;
      match result {
        case SendFailed(e) =>
          if e.EIntr? || e.EAgain? {
            return STATUS_W, r;
          }
          status := CloseWith(if e.EConnReset? || e.EPipe? then PeerReset else OsError(e));
        case Wrote(n) =>
          status := MarkSent(n);
      }
    }
  }
}
