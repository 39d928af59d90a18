/** Whole runs of the peer table: any interleaving of calls over any number of
    descriptors, each of which may be closed and handed to another peer. */
module PeerRuns {
  import opened Framing
  import opened Kernel
  import opened PeerState

  /** One call on the table.  `Send` carries the bytes the kernel took. */
  datatype Event =
    | Connect(fd: nat)
    | Feed(fd: nat, data: seq<Byte>)
    | Send(fd: nat, bytes: seq<Byte>)
    | Fail(fd: nat, reason: Reason)

  type Table = seq<PeerValue>

  function Effect(p: PeerValue, e: Event): PeerValue {
    match e
    case Connect(_) => Connected().peer
    case Feed(_, data) => Consumed(p, data).peer
    case Send(_, bytes) => Sent(p, |bytes|).peer
    case Fail(_, reason) => Closing(p, reason).peer
  }

  /** The caller keeps within the room asked for, and the kernel takes the front of what is pending. */
  ghost predicate Respects(t: Table, e: Event) {
    && e.fd < |t|
    && (e.Feed? ==> |e.data| <= Room(t[e.fd]))
    && (e.Send? ==> e.bytes <= Pending(t[e.fd]))
  }

  ghost function Run(start: Table, trace: seq<Event>): (t: Table)
    ensures |t| == |start|
  {
    if trace == [] then start
    else
      var t := Run(start, trace[..|trace| - 1]);
      var e := trace[|trace| - 1];
      if e.fd < |t| then t[e.fd := Effect(t[e.fd], e)] else t
  }

  ghost predicate IsRun(start: Table, trace: seq<Event>) {
    trace == [] ||
    var front := trace[..|trace| - 1];
    IsRun(start, front) && Respects(Run(start, front), trace[|trace| - 1])
  }

  // What the trace alone says about the connection now holding a descriptor.

  ghost predicate Opened(trace: seq<Event>, fd: nat) {
    exists i :: 0 <= i < |trace| && trace[i] == Connect(fd)
  }

  /** Bytes its current owner has sent us. */
  ghost function Heard(trace: seq<Event>, fd: nat): seq<Byte> {
    if trace == [] then []
    else
      var before := Heard(trace[..|trace| - 1], fd);
      match trace[|trace| - 1]
      case Connect(d) => if d == fd then [] else before
      case Feed(d, data) => if d == fd then before + data else before
      case _ => before
  }

  /** Bytes its current owner has been sent. */
  ghost function Told(trace: seq<Event>, fd: nat): seq<Byte> {
    if trace == [] then []
    else
      var before := Told(trace[..|trace| - 1], fd);
      match trace[|trace| - 1]
      case Connect(d) => if d == fd then [] else before
      case Send(d, bytes) => if d == fd then before + bytes else before
      case _ => before
  }

  /** What an open peer should be watched for: write exactly while output is pending. */
  function Interest(p: PeerValue): Status {
    if Pending(p) == [] then STATUS_R else STATUS_W
  }

  /** What holds of an entry whose owner has sent `heard` and been sent `told`. */
  ghost predicate Streaming(p: PeerValue, heard: seq<Byte>, told: seq<Byte>) {
    && told + Pending(p) == Answer(heard)
    && (p.phase.InitialAck? ==> heard == [] && Pending(p) != [])
    && (p.phase.Parsing? ==> p.phase.frame == After(WaitForMsg, heard))
    && (Pending(p) == [] ==> p.staged == [])
  }

  lemma StreamingConnect()
    ensures Streaming(Connected().peer, [], [])
  {
  }

  lemma FedWhenDrained(p: PeerValue, data: seq<Byte>)
    requires p.phase.Parsing? && p.staged == [] && 0 < |data| <= SENDBUF_SIZE
    ensures var o := Consumed(p, data);
            && Pending(o.peer) == o.peer.staged == Echo(p.phase.frame, data)
            && o.peer.phase == Parsing(After(p.phase.frame, data))
            && o.status == Interest(o.peer)
  {
  }

  lemma StreamingFeed(p: PeerValue, heard: seq<Byte>, told: seq<Byte>, data: seq<Byte>)
    requires Streaming(p, heard, told) && |data| <= Room(p)
    ensures Streaming(Consumed(p, data).peer, heard + data, told)
  {
    if data == [] {
      assert heard + data == heard;
    } else {
      FedWhenDrained(p, data);
      assert told == Answer(heard) by {
        assert told + Pending(p) == told;
      }
      AnswerConcat(heard, data);
      AfterConcat(WaitForMsg, heard, data);
    }
  }

  lemma StreamingSend(p: PeerValue, heard: seq<Byte>, told: seq<Byte>, bytes: seq<Byte>)
    requires Streaming(p, heard, told) && bytes <= Pending(p)
    ensures Streaming(Sent(p, |bytes|).peer, heard, told + bytes)
  {
    var q := Sent(p, |bytes|).peer;
    assert Pending(p) == bytes + Pending(q);
    assert told + bytes + Pending(q) == told + Pending(p);
  }

  /** In every run, from any table contents whatever, each connection's sent bytes
      followed by its pending bytes are the answer to that connection's own input. */
  lemma {:induction false} StreamRefinement(start: Table, trace: seq<Event>, fd: nat)
    requires IsRun(start, trace) && fd < |start| && Opened(trace, fd)
    ensures Streaming(Run(start, trace)[fd], Heard(trace, fd), Told(trace, fd))
  {
    var front, e := trace[..|trace| - 1], trace[|trace| - 1];
    var p, heard, told := Run(start, front)[fd], Heard(front, fd), Told(front, fd);
    if e == Connect(fd) {
      StreamingConnect();
    } else {
      var i :| 0 <= i < |trace| && trace[i] == Connect(fd);
      assert front[i] == Connect(fd);
      StreamRefinement(start, front, fd);
      if e.fd == fd {
        match e {
          case Feed(_, data) => StreamingFeed(p, heard, told, data);
          case Send(_, bytes) => StreamingSend(p, heard, told, bytes);
          case Fail(_, _) =>
        }
      }
    }
  }

  /** What is on the wire is a front of the answer, and all of it once nothing is pending. */
  lemma ToldIsFront(start: Table, trace: seq<Event>, fd: nat)
    requires IsRun(start, trace) && fd < |start| && Opened(trace, fd)
    ensures Told(trace, fd) <= Answer(Heard(trace, fd))
    ensures Pending(Run(start, trace)[fd]) == [] ==> Told(trace, fd) == Answer(Heard(trace, fd))
  {
    StreamRefinement(start, trace, fd);
    var told, rest := Told(trace, fd), Pending(Run(start, trace)[fd]);
    assert rest == [] ==> told + rest == told;
  }

  /** A connection may be read from only when its whole staging buffer is free. */
  lemma RoomAllOrNothing(p: PeerValue, heard: seq<Byte>, told: seq<Byte>)
    requires Streaming(p, heard, told)
    ensures Room(p) == if Pending(p) == [] then SENDBUF_SIZE else 0
  {
  }

  // ------------------------------------------------------------------ verdicts

  /** The call closes the peer for a reason of the peer's own, or asks for what the peer now needs. */
  ghost predicate Sensible(o: Outcome) {
    if o.status == STATUS_NORW then o.peer.reason.Some? && !Internal(o.peer.reason)
    else o.status == Interest(o.peer)
  }

  /** A drained peer is read into its whole buffer, and the verdict is sensible. */
  lemma RecvVerdict(p: PeerValue, r: RecvResult)
    requires p.phase.Parsing? && p.staged == [] && MayReceive(r, Room(p))
    ensures Room(p) == SENDBUF_SIZE
    ensures Sensible(ReadyRecv(p, r))
  {
    if r.Received? {
      FedWhenDrained(p, r.data);
    }
  }

  /** A peer with output pending is written to, and the verdict is sensible. */
  lemma SendVerdict(p: PeerValue, r: SendResult)
    requires Pending(p) != [] && MayWrite(r, |Pending(p)|)
    ensures Sensible(ReadySend(p, r))
  {
    if r.Wrote? {
      var q := Sent(p, r.n).peer;
      assert |Pending(q)| == |Pending(p)| - r.n;
    }
  }

  lemma RunStep(start: Table, trace: seq<Event>, e: Event)
    ensures Run(start, trace + [e]) ==
            var t := Run(start, trace);
            if e.fd < |t| then t[e.fd := Effect(t[e.fd], e)] else t
    ensures IsRun(start, trace + [e]) <==> IsRun(start, trace) && Respects(Run(start, trace), e)
  {
    assert (trace + [e])[..|trace|] == trace;
  }

  lemma OpenedStep(trace: seq<Event>, e: Event, fd: nat)
    ensures Opened(trace + [e], fd) <==> Opened(trace, fd) || e == Connect(fd)
  {
    assert (trace + [e])[|trace|] == e;
    if Opened(trace, fd) {
      var i :| 0 <= i < |trace| && trace[i] == Connect(fd);
      assert (trace + [e])[i] == Connect(fd);
    }
  }

  /** What a readiness handler adds to the history. */
  function RecvEvents(fd: nat, p: PeerValue, r: RecvResult): seq<Event> {
    if Room(p) == 0 then []
    else match r
      case Received(data) => [Feed(fd, data)]
      case _ =>
        var o := ReadyRecv(p, r);
        if o.status == STATUS_NORW then [Fail(fd, o.peer.reason.value)] else []
  }

  function SendEvents(fd: nat, p: PeerValue, r: SendResult): seq<Event>
    requires MayWrite(r, |Pending(p)|)
  {
    if Pending(p) == [] then []
    else match r
      case Wrote(n) => [Send(fd, Pending(p)[..n])]
      case SendFailed(_) =>
        var o := ReadySend(p, r);
        if o.status == STATUS_NORW then [Fail(fd, o.peer.reason.value)] else []
  }

  // ------------------------------------------------------------- tables as values

  /** A table together with the calls that made it what it is. */
  datatype Peers = Peers(start: Table, trace: seq<Event>, now: Table)

  ghost predicate Genuine(ps: Peers) {
    IsRun(ps.start, ps.trace) && ps.now == Run(ps.start, ps.trace)
  }

  /** The table as allocated: zeroed, with no calls made. */
  function NewPeers(maxFds: nat): Peers {
    var zeroed := seq(maxFds, i => PeerRecord(InitialAck, [], 0, None));
    Peers(zeroed, [], zeroed)
  }

  lemma NewPeersGenuine(maxFds: nat)
    ensures Genuine(NewPeers(maxFds)) && forall fd :: !Live(NewPeers(maxFds), fd)
  {
  }

  function Called(ps: Peers, e: Event): (r: Peers)
    requires e.fd < |ps.now|
    ensures |r.now| == |ps.now|
  {
    Peers(ps.start, ps.trace + [e], ps.now[e.fd := Effect(ps.now[e.fd], e)])
  }

  lemma CalledIsGenuine(ps: Peers, e: Event)
    requires Genuine(ps) && Respects(ps.now, e)
    ensures Genuine(Called(ps, e))
    ensures forall fd :: Opened(Called(ps, e).trace, fd) <==> Opened(ps.trace, fd) || e == Connect(fd)
  {
    RunStep(ps.start, ps.trace, e);
    forall fd {
      OpenedStep(ps.trace, e, fd);
    }
  }

  /** What is known of an open peer. */
  ghost predicate Live(ps: Peers, fd: nat) {
    fd < |ps.now| && Opened(ps.trace, fd)
  }

  lemma DrainedIsParsing(ps: Peers, fd: nat)
    requires Genuine(ps) && Live(ps, fd) && Pending(ps.now[fd]) == []
    ensures ps.now[fd].phase.Parsing? && ps.now[fd].staged == []
  {
    StreamRefinement(ps.start, ps.trace, fd);
  }

  // ------------------------------------------------------------ the table in memory

  /** All peers, indexed by descriptor, with the history of calls made on them. */
  class PeerTable {
    const peers: seq<Peer>
    ghost const start: Table
    ghost var trace: seq<Event>

    ghost function Footprint(): set<object> {
      (set i | 0 <= i < |peers| :: peers[i]) + (set i | 0 <= i < |peers| :: peers[i].sendbuf) + {this}
    }

    ghost predicate Separate() {
      && (forall i, j :: 0 <= i < j < |peers| ==> peers[i] != peers[j] && peers[i].sendbuf != peers[j].sendbuf)
    }

    ghost predicate Intact()
      reads Footprint()
    {
      Separate() && forall i :: 0 <= i < |peers| ==> peers[i].Valid()
    }

    ghost function Values(): (t: Table)
      requires Intact()
      reads Footprint()
      ensures |t| == |peers| && forall i :: 0 <= i < |peers| ==> t[i] == peers[i].Value()
    {
      seq(|peers|, i requires 0 <= i < |peers| && Intact() reads Footprint() => peers[i].Value())
    }

    ghost predicate Valid()
      reads Footprint()
    {
      Intact() && IsRun(start, trace) && Values() == Run(start, trace)
    }

    constructor (maxFds: nat)
      ensures Valid() && |peers| == maxFds && trace == [] && fresh(Footprint())
      ensures forall i :: 0 <= i < maxFds ==> Values()[i] == PeerRecord(InitialAck, [], 0, None)
    {
      var ps: seq<Peer> := [];
      ghost var vs: Table := [];
      while |ps| < maxFds
        invariant |ps| <= maxFds
        invariant forall i :: 0 <= i < |ps| ==> ps[i].Valid() && fresh(ps[i]) && fresh(ps[i].sendbuf)
        invariant forall i, j :: 0 <= i < j < |ps| ==> ps[i] != ps[j] && ps[i].sendbuf != ps[j].sendbuf
        invariant |vs| == |ps|
        invariant forall i :: 0 <= i < |ps| ==> vs[i] == ps[i].Value() == PeerRecord(InitialAck, [], 0, None)
      {
        var p := new Peer();
        ps := ps + [p];
        vs := vs + [p.Value()];
      }
      peers := ps;
      start := vs;
      trace := [];
      new;
      assert Values() == start;
    }

    /** The history after one more call, given the entry it left behind. */
    ghost predicate Advanced(before: Table, old_trace: seq<Event>, e: Event)
      reads Footprint()
    {
      Intact() && e.fd < |before| && trace == old_trace + [e] && Values() == before[e.fd := Effect(before[e.fd], e)]
    }

    lemma AdvancedIsValid(before: Table, old_trace: seq<Event>, e: Event)
      requires IsRun(start, old_trace) && before == Run(start, old_trace)
      requires Advanced(before, old_trace, e) && Respects(before, e)
      ensures Valid()
    {
      RunStep(start, old_trace, e);
    }

    method OnConnected(fd: nat) returns (status: Status)
      requires Valid() && fd < |peers|
      modifies this, peers[fd], peers[fd].sendbuf
      ensures Valid() && trace == old(trace) + [Connect(fd)]
      ensures Values() == old(Values())[fd := Connected().peer] && status == STATUS_W
    {
      ghost var before := Values();
      status := peers[fd].OnConnected();
      trace := trace + [Connect(fd)];
      assert Values() == before[fd := Connected().peer];
      AdvancedIsValid(before, old(trace), Connect(fd));
    }

    method FailPeer(fd: nat, reason: Reason) returns (status: Status)
      requires Valid() && fd < |peers|
      modifies this, peers[fd]
      ensures Valid() && trace == old(trace) + [Fail(fd, reason)]
      ensures Values() == old(Values())[fd := Closing(old(Values())[fd], reason).peer] && status == STATUS_NORW
    {
      ghost var before := Values();
      status := peers[fd].CloseWith(reason);
      trace := trace + [Fail(fd, reason)];
      assert Values() == before[fd := Closing(before[fd], reason).peer];
      AdvancedIsValid(before, old(trace), Fail(fd, reason));
    }

    /** Feeding more than there is room for is refused and recorded as a failure. */
    method Consume(fd: nat, data: seq<Byte>) returns (status: Status)
      requires Valid() && fd < |peers|
      modifies this, peers[fd], peers[fd].sendbuf
      ensures Valid()
      ensures Values() == old(Values())[fd := Consumed(old(Values())[fd], data).peer]
      ensures status == Consumed(old(Values())[fd], data).status
      ensures trace == old(trace) +
              [if |data| <= Room(old(Values())[fd]) then Feed(fd, data) else Fail(fd, RoomExceeded)]
    {
      ghost var before := Values();
      status := peers[fd].Consume(data);
      ghost var e := if |data| <= Room(before[fd]) then Feed(fd, data) else Fail(fd, RoomExceeded);
      trace := trace + [e];
      assert Values() == before[fd := Consumed(before[fd], data).peer];
      AdvancedIsValid(before, old(trace), e);
    }

    method MarkSent(fd: nat, n: nat) returns (status: Status)
      requires Valid() && fd < |peers| && n <= |Pending(Values()[fd])|
      modifies this, peers[fd]
      ensures Valid() && trace == old(trace) + [Send(fd, Pending(old(Values())[fd])[..n])]
      ensures Values() == old(Values())[fd := Sent(old(Values())[fd], n).peer]
      ensures status == Sent(old(Values())[fd], n).status
    {
      ghost var before := Values();
      status := peers[fd].MarkSent(n);
      ghost var e := Send(fd, Pending(before[fd])[..n]);
      trace := trace + [e];
      assert Values() == before[fd := Sent(before[fd], n).peer];
      AdvancedIsValid(before, old(trace), e);
    }

    method OnReadyRecv(fd: nat) returns (status: Status, ghost r: RecvResult)
      requires Valid() && fd < |peers|
      modifies this, peers[fd], peers[fd].sendbuf
      ensures Valid() && MayReceive(r, Room(old(Values())[fd]))
      ensures Outcome(Values()[fd], status) == ReadyRecv(old(Values())[fd], r)
      ensures Values() == old(Values())[fd := Values()[fd]]
      ensures trace == old(trace) + RecvEvents(fd, old(Values())[fd], r)
    {
      ghost var before := Values();
      status, r := peers[fd].OnReadyRecv();
      ghost var es := RecvEvents(fd, before[fd], r);
      trace := trace + es;
      assert Values() == before[fd := Values()[fd]];
      if es == [] {
        assert trace == old(trace) && Values() == before;
      } else {
        AdvancedIsValid(before, old(trace), es[0]);
      }
    }

    method OnReadySend(fd: nat) returns (status: Status, ghost r: SendResult)
      requires Valid() && fd < |peers|
      modifies this, peers[fd]
      ensures Valid() && MayWrite(r, |Pending(old(Values())[fd])|)
      ensures Outcome(Values()[fd], status) == ReadySend(old(Values())[fd], r)
      ensures Values() == old(Values())[fd := Values()[fd]]
      ensures trace == old(trace) + SendEvents(fd, old(Values())[fd], r)
    {
      ghost var before := Values();
      status, r := peers[fd].OnReadySend();
      ghost var es := SendEvents(fd, before[fd], r);
      trace := trace + es;
      assert Values() == before[fd := Values()[fd]];
      if es == [] {
        assert trace == old(trace) && Values() == before;
      } else {
        AdvancedIsValid(before, old(trace), es[0]);
      }
    }
  }
}
