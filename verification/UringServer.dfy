/** The io_uring loop.

  The program queues operations, the kernel takes them up and completes them in
  any order and at any time, moving bytes to and from a buffer per descriptor
  while the program runs, and the program works through the completions knowing
  only the 64 bits of user data it attached.  `Job` is one operation from the
  moment it is queued until its completion has been handled.
*/
module UringServer {
  import opened Framing
  import opened Kernel
  import opened PeerState
  import opened PeerRuns
  import opened EventLoop
  import opened Words

  const MAXFDS: nat := 16 * 1024
  const IOBUF_SIZE: nat := 1024

  // ---------------------------------------------------------------- user data

  datatype Op = OpAccept | OpRecv | OpSend

  function Code(op: Op): nat {
    match op case OpAccept => 1 case OpRecv => 2 case OpSend => 3
  }

  /** Operation in the high half, descriptor as an unsigned word in the low half. */
  function Pack(op: Op, fd: int): (data: nat)
    requires FitsInt(fd)
    ensures data < 0x1_0000_0000_0000_0000
  {
    Code(op) * 0x1_0000_0000 + fd % 0x1_0000_0000
  }

  function UnpackOp(data: nat): nat {
    data / 0x1_0000_0000
  }

  function UnpackFd(data: nat): int {
    var low := data % 0x1_0000_0000;
    if low < 0x8000_0000 then low else low - 0x1_0000_0000
  }

  /** Nothing is lost in the 64 bits, for any descriptor an int can hold. */
  lemma PackRoundTrip(op: Op, fd: int)
    requires FitsInt(fd)
    ensures UnpackOp(Pack(op, fd)) == Code(op) && UnpackFd(Pack(op, fd)) == fd
  {
    var low := fd % 0x1_0000_0000;
    assert low == if fd >= 0 then fd else fd + 0x1_0000_0000;
  }

  // -------------------------------------------------------------------- state

  datatype Stage = Queued | InFlight | Completed(res: int)

  datatype Job = Job(op: Op, fd: nat, len: nat, data: nat, stage: Stage)

  /** What crossed a connection: as the parser was told (`heard`, `told`) and as the
      kernel moved it (`got`, `put`). */
  datatype History = History(number: nat, heard: seq<Byte>, told: seq<Byte>, got: seq<Byte>, put: seq<Byte>)

  function Blank(number: nat): History {
    History(number, [], [], [], [])
  }

  /** The parser entry and the I/O buffer of a descriptor, and its connection's history. */
  datatype Slot = Slot(peer: PeerValue, buf: seq<Byte>, history: History)

  function Delivered(stage: Stage): nat {
    if stage.Completed? && stage.res > 0 then stage.res else 0
  }

  /** The one operation outstanding for a connection is the one its parser state calls for,
      with the buffer to match, and the kernel's view differs from the parser's by exactly
      what a completion not handled yet has moved. */
  ghost predicate Fits(s: Slot, job: Job) {
    && |s.buf| == IOBUF_SIZE && Delivered(job.stage) <= job.len <= IOBUF_SIZE
    && Streaming(s.peer, s.history.heard, s.history.told)
    && match job.op
       case OpAccept => false
       case OpRecv =>
         && Pending(s.peer) == [] && job.len == Room(s.peer) == IOBUF_SIZE
         && s.history.got == s.history.heard + s.buf[..Delivered(job.stage)]
         && s.history.put == s.history.told
       case OpSend =>
         && job.len == |Pending(s.peer)| > 0 && s.buf[..job.len] == Pending(s.peer)
         && s.history.put == s.history.told + s.buf[..Delivered(job.stage)]
         && s.history.got == s.history.heard
  }

  // ----------------------------------------------------- one connection's turn

  function NewJob(op: Op, fd: nat, len: nat): Job
    requires FitsInt(fd)
  {
    Job(op, fd, len, Pack(op, fd), Queued)
  }

  /** What becomes of a connection: its next operation is queued, or it is over. */
  datatype Turn = Armed(slot: Slot, job: Job) | Over(peer: PeerValue)

  function QueueRecv(fd: nat, s: Slot): Turn
    requires FitsInt(fd)
  {
    Armed(s, NewJob(OpRecv, fd, Min(Room(s.peer), IOBUF_SIZE)))
  }

  /** The pending bytes are copied out, since the parser may rewrite its own buffer. */
  function QueueSend(fd: nat, s: Slot): Turn
    requires FitsInt(fd) && |s.buf| == IOBUF_SIZE
  {
    var out := Pending(s.peer);
    if out == [] then QueueRecv(fd, s)
    else
      var len := Min(|out|, IOBUF_SIZE);
      Armed(s.(buf := out[..len] + s.buf[len..]), NewJob(OpSend, fd, len))
  }

  function ArmNext(fd: nat, s: Slot, status: Status): Turn
    requires FitsInt(fd) && |s.buf| == IOBUF_SIZE
  {
    if !status.wantRead && !status.wantWrite then Over(s.peer)
    else if status.wantWrite then QueueSend(fd, s)
    else QueueRecv(fd, s)
  }

  predicate Transient(res: int) {
    res == -4 || res == -11
  }

  /** The reason recorded for a completion that ends its connection. */
  function ReasonFor(res: int): Reason {
    if res < 0 then OsError(EOther(-res)) else PeerClosed
  }

  function Failing(fd: nat, s: Slot, res: int): Turn
    requires FitsInt(fd) && |s.buf| == IOBUF_SIZE
  {
    var o := Closing(s.peer, ReasonFor(res));
    ArmNext(fd, s.(peer := o.peer), o.status)
  }

  function OnRecv(fd: nat, s: Slot, res: int): Turn
    requires FitsInt(fd) && |s.buf| == IOBUF_SIZE && res <= IOBUF_SIZE
  {
    if Transient(res) then QueueRecv(fd, s)
    else if res <= 0 then Failing(fd, s, res)
    else
      var data := s.buf[..res];
      var o := Consumed(s.peer, data);
      ArmNext(fd, s.(peer := o.peer, history := s.history.(heard := s.history.heard + data)), o.status)
  }

  function OnSend(fd: nat, s: Slot, res: int): Turn
    requires FitsInt(fd) && |s.buf| == IOBUF_SIZE && res <= |Pending(s.peer)|
  {
    if Transient(res) then QueueSend(fd, s)
    else if res < 0 then Failing(fd, s, res)
    else
      var o := Sent(s.peer, res);
      ArmNext(fd, s.(peer := o.peer, history := s.history.(told := s.history.told + Pending(s.peer)[..res])), o.status)
  }

  /** Parser and kernel agree on everything moved so far. */
  ghost predicate Settled(s: Slot) {
    && |s.buf| == IOBUF_SIZE && Streaming(s.peer, s.history.heard, s.history.told)
    && s.history.got == s.history.heard && s.history.put == s.history.told
  }

  lemma ArmedFits(fd: nat, s: Slot, status: Status)
    requires FitsInt(fd) && Settled(s) && status == Interest(s.peer)
    ensures var next := ArmNext(fd, s, status);
            next.Armed? && Rearmed(fd, next) && next.slot.history == s.history
  {
    var Armed(s', job) := ArmNext(fd, s, status);
    RoomAllOrNothing(s.peer, s.history.heard, s.history.told);
    assert s'.buf[..Delivered(job.stage)] == [];
    assert s.history.heard + [] == s.history.heard && s.history.told + [] == s.history.told;
  }

  ghost predicate Rearmed(fd: nat, next: Turn)
    requires FitsInt(fd)
  {
    next.Armed? ==>
      && Fits(next.slot, next.job) && next.job.fd == fd && next.job.stage == Queued
      && next.job.data == Pack(next.job.op, fd)
  }

  /** A completion that goes on leaves the parser level with the kernel and a fitting operation
      queued; any other leaves the entry as it was but for the reason. */
  ghost predicate Handles(s: Slot, job: Job, next: Turn)
    requires FitsInt(job.fd) && job.stage.Completed?
  {
    if Continues(job.op, job.stage.res) then
      next.Armed? && Rearmed(job.fd, next) && next.slot.history == Level(s.history)
    else
      next == Over(s.peer.(reason := Some(ReasonFor(job.stage.res))))
  }

  /** The parser's account of a connection brought level with the kernel's. */
  function Level(h: History): History {
    History(h.number, h.got, h.put, h.got, h.put)
  }

  /** The completions after which a connection goes on: bytes moved, or a call to repeat. */
  predicate Continues(op: Op, res: int) {
    res > 0 || Transient(res) || (op == OpSend && res == 0)
  }

  /** A receive completion leads to an operation that fits again, or to a close. */
  lemma RecvRearms(s: Slot, job: Job)
    requires FitsInt(job.fd) && Fits(s, job) && job.op == OpRecv && job.stage.Completed?
    ensures Handles(s, job, OnRecv(job.fd, s, job.stage.res))
  {
    var res := job.stage.res;
    if res > 0 {
      var data := s.buf[..res];
      StreamingFeed(s.peer, s.history.heard, s.history.told, data);
      FedWhenDrained(s.peer, data);
      var o := Consumed(s.peer, data);
      ArmedFits(job.fd, s.(peer := o.peer, history := s.history.(heard := s.history.heard + data)), o.status);
    } else if Transient(res) {
      assert s.buf[..0] == [] && s.history.heard + [] == s.history.heard;
      ArmedFits(job.fd, s, STATUS_R);
    }
  }

  /** A send completion retires exactly the bytes the kernel took. */
  lemma SendRearms(s: Slot, job: Job)
    requires FitsInt(job.fd) && Fits(s, job) && job.op == OpSend && job.stage.Completed?
    ensures Handles(s, job, OnSend(job.fd, s, job.stage.res))
  {
    var res := job.stage.res;
    if res >= 0 {
      var bytes := Pending(s.peer)[..res];
      assert bytes == s.buf[..job.len][..res] == s.buf[..res];
      StreamingSend(s.peer, s.history.heard, s.history.told, bytes);
      var o := Sent(s.peer, res);
      assert o.status == Interest(o.peer);
      ArmedFits(job.fd, s.(peer := o.peer, history := s.history.(told := s.history.told + bytes)), o.status);
    } else if Transient(res) {
      assert s.buf[..0] == [] && s.history.told + [] == s.history.told;
      ArmedFits(job.fd, s, STATUS_W);
    }
  }

  lemma ConnectArms(fd: nat, buf: seq<Byte>, number: nat)
    requires FitsInt(fd) && |buf| == IOBUF_SIZE
    ensures var next := ArmNext(fd, Slot(Connected().peer, buf, Blank(number)), Connected().status);
            next.Armed? && Rearmed(fd, next) && next.slot.history == Blank(number)
  {
    StreamingConnect();
    ArmedFits(fd, Slot(Connected().peer, buf, Blank(number)), STATUS_W);
  }

  /** The kernel has put on the wire a front of the answer to what it has delivered. */
  lemma WireIsFront(s: Slot, job: Job)
    requires Fits(s, job)
    ensures s.history.put <= Answer(s.history.got)
  {
    var h := s.history;
    if job.op == OpRecv {
      assert h.told + Pending(s.peer) == h.told;
      AnswerMonotone(h.heard, h.got);
    } else {
      var n := Delivered(job.stage);
      assert s.buf[..n] == s.buf[..job.len][..n] == Pending(s.peer)[..n];
      assert h.told + Pending(s.peer)[..n] <= h.told + Pending(s.peer);
    }
  }

  // ---------------------------------------------------------------- the server

  /** `conns` are the open connections by descriptor; entries and buffers of closed
      descriptors keep whatever their last owner left. */
  datatype Ring = Ring(
    listener: nat, peers: Table, iobufs: seq<seq<Byte>>, conns: map<nat, History>, jobs: seq<Job>, connections: nat)

  ghost predicate Shaped(r: Ring) {
    && |r.peers| == |r.iobufs| == MAXFDS && (forall fd :: 0 <= fd < MAXFDS ==> |r.iobufs[fd]| == IOBUF_SIZE)
    && FitsInt(r.listener) && r.listener !in r.conns
    && forall fd :: fd in r.conns ==> fd < MAXFDS
  }

  function SlotOf(r: Ring, fd: nat): Slot
    requires fd < |r.peers| && fd < |r.iobufs| && fd in r.conns
  {
    Slot(r.peers[fd], r.iobufs[fd], r.conns[fd])
  }

  /** Each job is the listener's accept, whose result is a descriptor nobody holds, or the
      operation that fits an open connection. */
  ghost predicate JobOk(r: Ring, job: Job)
    requires Shaped(r)
  {
    && FitsInt(job.fd) && job.data == Pack(job.op, job.fd)
    && if job.op == OpAccept then
         && job.fd == r.listener
         && (job.stage.Completed? && job.stage.res >= 0 ==> job.stage.res !in r.conns && job.stage.res != r.listener)
       else
         job.fd in r.conns && Fits(SlotOf(r, job.fd), job)
  }

  ghost predicate HasJob(jobs: seq<Job>, fd: nat) {
    exists j :: 0 <= j < |jobs| && jobs[j].fd == fd
  }

  /** Exactly one job for each of `fds`, and none for any other descriptor. */
  ghost predicate OneEach(jobs: seq<Job>, fds: set<nat>) {
    && (forall j :: 0 <= j < |jobs| ==> jobs[j].fd in fds)
    && (forall j, k :: 0 <= j < k < |jobs| ==> jobs[j].fd != jobs[k].fd)
    && (forall fd :: fd in fds ==> HasJob(jobs, fd))
  }

  ghost predicate JobsOk(r: Ring)
    requires Shaped(r)
  {
    forall j :: 0 <= j < |r.jobs| ==> JobOk(r, r.jobs[j])
  }

  /** Every open connection and the listener has exactly one job, and nothing else has any. */
  ghost predicate Good(r: Ring) {
    Shaped(r) && JobsOk(r) && OneEach(r.jobs, r.conns.Keys + {r.listener})
  }

  function Without(jobs: seq<Job>, j: nat): seq<Job>
    requires j < |jobs|
  {
    jobs[..j] + jobs[j + 1..]
  }

  lemma OneEachReplace(jobs: seq<Job>, fds: set<nat>, j: nat, job: Job)
    requires OneEach(jobs, fds) && j < |jobs| && job.fd == jobs[j].fd
    ensures OneEach(jobs[j := job], fds)
  {
    forall fd | fd in fds
      ensures HasJob(jobs[j := job], fd)
    {
      var k :| 0 <= k < |jobs| && jobs[k].fd == fd;
      assert jobs[j := job][k].fd == fd;
    }
  }

  lemma OneEachRemove(jobs: seq<Job>, fds: set<nat>, j: nat)
    requires OneEach(jobs, fds) && j < |jobs|
    ensures OneEach(Without(jobs, j), fds - {jobs[j].fd})
  {
    var rest := Without(jobs, j);
    forall k | 0 <= k < |rest|
      ensures rest[k].fd in fds - {jobs[j].fd}
    {
      assert rest[k] == jobs[if k < j then k else k + 1];
    }
    forall fd | fd in fds - {jobs[j].fd}
      ensures HasJob(rest, fd)
    {
      var k :| 0 <= k < |jobs| && jobs[k].fd == fd;
      assert rest[if k < j then k else k - 1].fd == fd;
    }
  }

  lemma OneEachAppend(jobs: seq<Job>, fds: set<nat>, job: Job)
    requires OneEach(jobs, fds) && job.fd !in fds
    ensures OneEach(jobs + [job], fds + {job.fd})
  {
    var more := jobs + [job];
    forall fd | fd in fds + {job.fd}
      ensures HasJob(more, fd)
    {
      if fd == job.fd {
        assert more[|jobs|].fd == fd;
      } else {
        var k :| 0 <= k < |jobs| && jobs[k].fd == fd;
        assert more[k].fd == fd;
      }
    }
  }

  /** Descriptor `fd` belongs to a connection with slot `s`. */
  function WithSlot(r: Ring, fd: nat, s: Slot, jobs: seq<Job>): Ring
    requires fd < |r.peers| && fd < |r.iobufs|
  {
    Ring(r.listener, r.peers[fd := s.peer], r.iobufs[fd := s.buf], r.conns[fd := s.history], jobs,
         if fd in r.conns then r.connections else r.connections + 1)
  }

  lemma WithSlotShaped(r: Ring, fd: nat, s: Slot, jobs: seq<Job>)
    requires Shaped(r) && fd < MAXFDS && fd != r.listener && |s.buf| == IOBUF_SIZE
    ensures var r' := WithSlot(r, fd, s, jobs);
            Shaped(r') && fd in r'.conns && SlotOf(r', fd) == s && r'.conns.Keys == r.conns.Keys + {fd}
  {
  }

  /** Every other descriptor's job is as good as it was. */
  lemma JobUnaffected(r: Ring, fd: nat, s: Slot, jobs: seq<Job>, job: Job)
    requires Shaped(r) && fd < MAXFDS && fd != r.listener && |s.buf| == IOBUF_SIZE
    requires JobOk(r, job) && job.fd != fd
    requires job.op == OpAccept && job.stage.Completed? ==> fd in r.conns || job.stage.res != fd
    ensures Shaped(WithSlot(r, fd, s, jobs)) && JobOk(WithSlot(r, fd, s, jobs), job)
  {
    WithSlotShaped(r, fd, s, jobs);
    if job.op != OpAccept {
      assert SlotOf(WithSlot(r, fd, s, jobs), job.fd) == SlotOf(r, job.fd);
    }
  }

  /** Job `j`'s connection moves to slot `s`, with the job replaced. */
  lemma MovedStaysGood(r: Ring, j: nat, s: Slot, job: Job)
    requires Good(r) && j < |r.jobs| && r.jobs[j].op != OpAccept && job.fd == r.jobs[j].fd
    requires Fits(s, job) && job.data == Pack(job.op, job.fd)
    ensures job.fd in r.conns && job.fd < MAXFDS && Good(WithSlot(r, job.fd, s, r.jobs[j := job]))
  {
    assert JobOk(r, r.jobs[j]);
    var jobs := r.jobs[j := job];
    OneEachReplace(r.jobs, r.conns.Keys + {r.listener}, j, job);
    WithSlotShaped(r, job.fd, s, jobs);
    assert r.conns.Keys + {job.fd} == r.conns.Keys;
    forall k | 0 <= k < |jobs|
      ensures JobOk(WithSlot(r, job.fd, s, jobs), jobs[k])
    {
      if k != j {
        JobUnaffected(r, job.fd, s, jobs, r.jobs[k]);
      }
    }
  }

  /** Job `j`'s connection is over, leaving `p` in the table. */
  function Closed(r: Ring, j: nat, p: PeerValue): Ring
    requires j < |r.jobs| && r.jobs[j].fd < |r.peers|
  {
    var fd := r.jobs[j].fd;
    r.(peers := r.peers[fd := p], conns := r.conns - {fd}, jobs := Without(r.jobs, j))
  }

  lemma JobSurvivesClose(r: Ring, j: nat, p: PeerValue, job: Job)
    requires Shaped(r) && j < |r.jobs| && r.jobs[j].fd < MAXFDS && JobOk(r, job) && job.fd != r.jobs[j].fd
    ensures Shaped(Closed(r, j, p)) && JobOk(Closed(r, j, p), job)
  {
    if job.op != OpAccept {
      assert SlotOf(Closed(r, j, p), job.fd) == SlotOf(r, job.fd);
    }
  }

  /** What is left in the list is what was there, less the job removed. */
  lemma WithoutAt(jobs: seq<Job>, j: nat, k: nat)
    requires j < |jobs| && k < |jobs| - 1
    ensures Without(jobs, j)[k] == jobs[if k < j then k else k + 1]
  {
  }

  lemma ClosedJobsOk(r: Ring, j: nat, p: PeerValue)
    requires Shaped(r) && JobsOk(r) && OneEach(r.jobs, r.conns.Keys + {r.listener})
    requires j < |r.jobs| && r.jobs[j].fd < MAXFDS
    ensures Shaped(Closed(r, j, p)) && JobsOk(Closed(r, j, p))
  {
    forall k | 0 <= k < |r.jobs| - 1
      ensures JobOk(Closed(r, j, p), Without(r.jobs, j)[k])
    {
      var k0 := if k < j then k else k + 1;
      WithoutAt(r.jobs, j, k);
      JobSurvivesClose(r, j, p, r.jobs[k0]);
    }
  }

  lemma ClosedOneEach(r: Ring, j: nat, p: PeerValue)
    requires OneEach(r.jobs, r.conns.Keys + {r.listener}) && j < |r.jobs|
    requires r.jobs[j].fd != r.listener && r.jobs[j].fd < |r.peers|
    ensures var r' := Closed(r, j, p); OneEach(r'.jobs, r'.conns.Keys + {r'.listener})
  {
    OneEachRemove(r.jobs, r.conns.Keys + {r.listener}, j);
    var r' := Closed(r, j, p);
    assert r'.conns.Keys + {r'.listener} == r.conns.Keys + {r.listener} - {r.jobs[j].fd};
  }

  lemma ConnectionInTable(r: Ring, j: nat)
    requires Shaped(r) && JobsOk(r) && j < |r.jobs| && r.jobs[j].op != OpAccept
    ensures r.jobs[j].fd != r.listener && r.jobs[j].fd < MAXFDS
  {
    assert JobOk(r, r.jobs[j]);
  }

  /** Closing a connection takes its only job with it. */
  lemma ClosedStaysGood(r: Ring, j: nat, p: PeerValue)
    requires Good(r) && j < |r.jobs| && r.jobs[j].op != OpAccept
    ensures r.jobs[j].fd < MAXFDS && Good(Closed(r, j, p))
  {
    ConnectionInTable(r, j);
    ClosedJobsOk(r, j, p);
    ClosedOneEach(r, j, p);
  }

  ghost predicate AcceptQueued(jobs: seq<Job>) {
    forall j :: 0 <= j < |jobs| && jobs[j].op == OpAccept ==> jobs[j].stage == Queued
  }

  /** A new connection takes a descriptor nobody holds, whatever its last owner left there. */
  lemma JoinedStaysGood(r: Ring, s: Slot, job: Job)
    requires Good(r) && job.fd !in r.conns && job.fd != r.listener && job.fd < MAXFDS
    requires AcceptQueued(r.jobs) && job.op != OpAccept && Fits(s, job) && job.data == Pack(job.op, job.fd)
    ensures Good(WithSlot(r, job.fd, s, r.jobs + [job]))
  {
    var jobs := r.jobs + [job];
    OneEachAppend(r.jobs, r.conns.Keys + {r.listener}, job);
    WithSlotShaped(r, job.fd, s, jobs);
    assert r.conns.Keys + {job.fd} + {r.listener} == r.conns.Keys + {r.listener} + {job.fd};
    forall k | 0 <= k < |jobs|
      ensures JobOk(WithSlot(r, job.fd, s, jobs), jobs[k])
    {
      if k < |r.jobs| {
        assert r.jobs[k].fd in r.conns.Keys + {r.listener};
        JobUnaffected(r, job.fd, s, jobs, r.jobs[k]);
      }
    }
  }

  /** The listener's job changes stage; its result, if any, is a descriptor nobody holds. */
  lemma AcceptStaysGood(r: Ring, j: nat, stage: Stage)
    requires Good(r) && j < |r.jobs| && r.jobs[j].op == OpAccept
    requires stage.Completed? && stage.res >= 0 ==> stage.res !in r.conns && stage.res != r.listener
    ensures Good(r.(jobs := r.jobs[j := r.jobs[j].(stage := stage)]))
  {
    assert JobOk(r, r.jobs[j]);
    var r' := r.(jobs := r.jobs[j := r.jobs[j].(stage := stage)]);
    OneEachReplace(r.jobs, r.conns.Keys + {r.listener}, j, r'.jobs[j]);
    forall k | 0 <= k < |r'.jobs|
      ensures JobOk(r', r'.jobs[k])
    {
      assert JobOk(r, r.jobs[k]);
      if r.jobs[k].op != OpAccept {
        assert SlotOf(r', r.jobs[k].fd) == SlotOf(r, r.jobs[k].fd);
      }
    }
  }

  // ----------------------------------------------------------- the kernel's steps

  /** A connection's job and slot, moved together. */
  method Move(r: Ring, j: nat, s: Slot, job: Job) returns (r': Ring)
    requires Good(r) && j < |r.jobs| && r.jobs[j].op != OpAccept && job.fd == r.jobs[j].fd
    requires Fits(s, job) && job.data == Pack(job.op, job.fd)
    ensures Good(r') && job.fd in r.conns && job.fd < MAXFDS && r' == WithSlot(r, job.fd, s, r.jobs[j := job])
  {
    MovedStaysGood(r, j, s, job);
    r' := WithSlot(r, job.fd, s, r.jobs[j := job]);
  }

  /** A queued operation is taken up, and nothing else happens. */
  ghost predicate TakenUp(r: Ring, r': Ring, j: nat) {
    && j < |r.jobs| && r.jobs[j].stage == Queued
    && r' == r.(jobs := r.jobs[j := r.jobs[j].(stage := InFlight)])
  }

  lemma SameEntry<T>(s: seq<T>, i: nat)
    requires i < |s|
    ensures s[i := s[i]] == s
  {
  }

  lemma SameSlot(r: Ring, fd: nat, jobs: seq<Job>)
    requires fd < |r.peers| && fd < |r.iobufs| && fd in r.conns
    ensures WithSlot(r, fd, SlotOf(r, fd), jobs) == r.(jobs := jobs)
  {
    SameEntry(r.peers, fd);
    SameEntry(r.iobufs, fd);
    assert r.conns[fd := r.conns[fd]] == r.conns;
  }

  lemma SubmittedStaysGood(r: Ring, j: nat)
    requires Good(r) && j < |r.jobs| && r.jobs[j].stage == Queued && r.jobs[j].op != OpAccept
    ensures Good(r.(jobs := r.jobs[j := r.jobs[j].(stage := InFlight)]))
  {
    var job := r.jobs[j].(stage := InFlight);
    assert JobOk(r, r.jobs[j]);
    MovedStaysGood(r, j, SlotOf(r, job.fd), job);
    SameSlot(r, job.fd, r.jobs[j := job]);
  }

  method Submit(r: Ring, j: nat) returns (r': Ring)
    requires Good(r) && j < |r.jobs| && r.jobs[j].stage == Queued
    ensures Good(r') && TakenUp(r, r', j)
  {
    if r.jobs[j].op == OpAccept {
      AcceptStaysGood(r, j, InFlight);
    } else {
      SubmittedStaysGood(r, j);
    }
    r' := r.(jobs := r.jobs[j := r.jobs[j].(stage := InFlight)]);
  }

  /** The kernel writes what arrived over the front of the descriptor's buffer. */
  lemma DeliveryFits(s: Slot, job: Job, data: seq<Byte>)
    requires Fits(s, job) && job.op == OpRecv && !job.stage.Completed? && |data| <= job.len
    ensures Fits(s.(buf := data + s.buf[|data|..], history := s.history.(got := s.history.got + data)),
                 job.(stage := Completed(|data|)))
  {
    var buf := data + s.buf[|data|..];
    assert s.buf[..0] == [] && s.history.heard + [] == s.history.heard;
    assert buf[..|data|] == data;
  }

  /** The kernel takes what it sends from the front of the descriptor's buffer. */
  lemma TransmissionFits(s: Slot, job: Job, n: nat)
    requires Fits(s, job) && job.op == OpSend && !job.stage.Completed? && n <= job.len
    ensures Fits(s.(history := s.history.(put := s.history.put + s.buf[..n])), job.(stage := Completed(n)))
  {
    assert s.buf[..0] == [] && s.history.told + [] == s.history.told;
  }

  /** The kernel moved `n` bytes, of which the parser does not know yet. */
  ghost predicate Moved(h: History, h': History, n: nat) {
    && h'.number == h.number && h'.heard == h.heard && h'.told == h.told
    && h.got <= h'.got && h.put <= h'.put && |h'.got| + |h'.put| == |h.got| + |h.put| + n
  }

  /** A taken-up operation completes, having moved the bytes it says, and nothing else happens. */
  ghost predicate Finished(r: Ring, r': Ring, j: nat) {
    && j < |r.jobs| == |r'.jobs| && r.jobs[j].stage == InFlight && r'.jobs[j].stage.Completed?
    && r'.listener == r.listener && r'.peers == r.peers && r'.connections == r.connections
    && |r'.iobufs| == |r.iobufs|
    && (forall fd :: 0 <= fd < |r.iobufs| && fd != r.jobs[j].fd ==> r'.iobufs[fd] == r.iobufs[fd])
    && r'.jobs == r.jobs[j := r.jobs[j].(stage := r'.jobs[j].stage)] && r'.conns.Keys == r.conns.Keys
    && forall fd :: fd in r.conns ==>
         Moved(r.conns[fd], r'.conns[fd], if fd == r.jobs[j].fd then Delivered(r'.jobs[j].stage) else 0)
  }

  lemma OnlyOneMoved(r: Ring, j: nat, stage: Stage, s: Slot)
    requires j < |r.jobs| && r.jobs[j].stage == InFlight && stage.Completed? && r.jobs[j].fd in r.conns
    requires r.jobs[j].fd < |r.peers| && r.jobs[j].fd < |r.iobufs| && s.peer == r.peers[r.jobs[j].fd]
    requires Moved(r.conns[r.jobs[j].fd], s.history, Delivered(stage))
    ensures Finished(r, WithSlot(r, r.jobs[j].fd, s, r.jobs[j := r.jobs[j].(stage := stage)]), j)
  {
    var r' := WithSlot(r, r.jobs[j].fd, s, r.jobs[j := r.jobs[j].(stage := stage)]);
    SameEntry(r.peers, r.jobs[j].fd);
    assert r'.conns.Keys == r.conns.Keys + {r.jobs[j].fd} == r.conns.Keys;
  }

  method CompleteRecv(r: Ring, j: nat, failure: int) returns (r': Ring)
    requires Good(r) && j < |r.jobs| && r.jobs[j].stage == InFlight && r.jobs[j].op == OpRecv && failure < 0
    ensures Good(r') && Finished(r, r', j)
  {
    var job := r.jobs[j];
    assert JobOk(r, job);
    var s := SlotOf(r, job.fd);
    var res := Recv(job.len);
    var stage := Completed(if res.Received? then |res.data| else if res.EndOfStream? then 0 else failure);
    if res.Received? {
      DeliveryFits(s, job, res.data);
      s := s.(buf := res.data + s.buf[|res.data|..], history := s.history.(got := s.history.got + res.data));
    }
    r' := Move(r, j, s, job.(stage := stage));
    OnlyOneMoved(r, j, stage, s);
  }

  method CompleteSend(r: Ring, j: nat, failure: int) returns (r': Ring)
    requires Good(r) && j < |r.jobs| && r.jobs[j].stage == InFlight && r.jobs[j].op == OpSend && failure < 0
    ensures Good(r') && Finished(r, r', j)
  {
    var job := r.jobs[j];
    assert JobOk(r, job);
    var s := SlotOf(r, job.fd);
    var res := Kernel.Send(job.len);
    var stage := Completed(if res.Wrote? then res.n else failure);
    if res.Wrote? {
      TransmissionFits(s, job, res.n);
      s := s.(history := s.history.(put := s.history.put + s.buf[..res.n]));
    }
    r' := Move(r, j, s, job.(stage := stage));
    OnlyOneMoved(r, j, stage, s);
  }

  lemma NobodyMoved(r: Ring, j: nat, stage: Stage)
    requires j < |r.jobs| && r.jobs[j].stage == InFlight && stage.Completed? && r.jobs[j].fd !in r.conns
    ensures Finished(r, r.(jobs := r.jobs[j := r.jobs[j].(stage := stage)]), j)
  {
  }

  method CompleteAccept(r: Ring, j: nat, failure: int) returns (r': Ring)
    requires Good(r) && j < |r.jobs| && r.jobs[j].stage == InFlight && r.jobs[j].op == OpAccept && failure < 0
    ensures Good(r') && Finished(r, r', j)
  {
    assert JobOk(r, r.jobs[j]);
    var res := Accept(r.conns.Keys + {r.listener});
    var stage := Completed(if res.Accepted? then res.fd else failure);
    AcceptStaysGood(r, j, stage);
    NobodyMoved(r, j, stage);
    r' := r.(jobs := r.jobs[j := r.jobs[j].(stage := stage)]);
  }

  /** Any completion the kernel likes. */
  method Complete(r: Ring, j: nat) returns (r': Ring)
    requires Good(r) && j < |r.jobs| && r.jobs[j].stage == InFlight
    ensures Good(r') && Finished(r, r', j)
  {
    var failure: int :| failure < 0;
    match r.jobs[j].op {
      case OpAccept =>
        r' := CompleteAccept(r, j, failure);
      case OpRecv =>
        r' := CompleteRecv(r, j, failure);
      case OpSend =>
        r' := CompleteSend(r, j, failure);
    }
  }

  // ---------------------------------------------------------- the program's step

  /** Only descriptor `fd` may have a new parser entry or I/O buffer. */
  ghost predicate OnlyAt(r: Ring, r': Ring, fd: int) {
    && r'.listener == r.listener && |r'.peers| == |r.peers| && |r'.iobufs| == |r.iobufs|
    && (forall x :: 0 <= x < |r.peers| && x != fd ==> r'.peers[x] == r.peers[x])
    && (forall x :: 0 <= x < |r.iobufs| && x != fd ==> r'.iobufs[x] == r.iobufs[x])
  }

  /** The completion of an accept was handled: the accept is queued again, and a descriptor
      within the table starts a connection with a blank history. */
  ghost predicate Welcomed(r: Ring, r': Ring, j: nat, res: int) {
    && j < |r.jobs| && OnlyAt(r, r', res) && r.jobs[j := r.jobs[j].(stage := Queued)] <= r'.jobs
    && if 0 <= res < MAXFDS then
         res !in r.conns && r'.conns == r.conns[res := Blank(r.connections)] && r'.connections == r.connections + 1
       else
         r'.conns == r.conns && r'.connections == r.connections
  }

  /** The completion of a connection's operation was handled: either the parser is level with
      the kernel and the next operation queued, or the connection and its job are gone. */
  ghost predicate Advanced(r: Ring, r': Ring, j: nat, res: int) {
    && j < |r.jobs| && r.jobs[j].fd in r.conns
    && var fd := r.jobs[j].fd;
       if Continues(r.jobs[j].op, res) then
         && OnlyAt(r, r', fd) && r'.conns == r.conns[fd := Level(r.conns[fd])] && r'.connections == r.connections
         && |r'.jobs| == |r.jobs| && r'.jobs == r.jobs[j := r'.jobs[j]]
         && r'.jobs[j].fd == fd && r'.jobs[j].stage == Queued
       else
         fd < |r.peers| && r' == Closed(r, j, r.peers[fd].(reason := Some(ReasonFor(res))))
  }

  ghost predicate Processed(r: Ring, r': Ring, j: nat) {
    && j < |r.jobs| && r.jobs[j].stage.Completed?
    && if r.jobs[j].op == OpAccept then Welcomed(r, r', j, r.jobs[j].stage.res)
       else Advanced(r, r', j, r.jobs[j].stage.res)
  }

  /** The listener is rearmed first; then the new peer, if any and if it fits the table, is
      given its acknowledgement to send. */
  method OnAccept(r: Ring, j: nat, res: int) returns (r': Ring)
    requires Good(r) && j < |r.jobs| && r.jobs[j].op == OpAccept && r.jobs[j].stage == Completed(res)
    ensures Good(r') && Welcomed(r, r', j, res)
  {
    assert JobOk(r, r.jobs[j]);
    AcceptStaysGood(r, j, Queued);
    r' := r.(jobs := r.jobs[j := NewJob(OpAccept, r.listener, 0).(len := r.jobs[j].len)]);
    if res < 0 || res >= |r.peers| {
      return;
    }
    var s := Slot(Connected().peer, r'.iobufs[res], Blank(r.connections));
    ConnectArms(res, s.buf, r.connections);
    var Armed(s', job) := ArmNext(res, s, Connected().status);
    assert AcceptQueued(r'.jobs);
    JoinedStaysGood(r', s', job);
    WithSlotShaped(r', res, s', r'.jobs + [job]);
    r' := WithSlot(r', res, s', r'.jobs + [job]);
  }

  /** A connection takes its next turn. */
  method TakeTurn(r: Ring, j: nat, next: Turn) returns (r': Ring)
    requires Good(r) && j < |r.jobs| && r.jobs[j].stage.Completed? && r.jobs[j].op != OpAccept
    requires FitsInt(r.jobs[j].fd) && r.jobs[j].fd in r.conns && r.jobs[j].fd < MAXFDS
    requires Handles(SlotOf(r, r.jobs[j].fd), r.jobs[j], next)
    ensures Good(r') && Advanced(r, r', j, r.jobs[j].stage.res)
  {
    match next {
      case Armed(s, job) =>
        r' := Move(r, j, s, job);
      case Over(p) =>
        ClosedStaysGood(r, j, p);
        r' := Closed(r, j, p);
    }
  }

  /** One completion, recognised by its user data alone. */
  method Process(r: Ring, j: nat) returns (r': Ring)
    requires Good(r) && j < |r.jobs| && r.jobs[j].stage.Completed?
    ensures Good(r') && Processed(r, r', j)
  {
    var data, res := r.jobs[j].data, r.jobs[j].stage.res;
    ghost var job := r.jobs[j];
    assert JobOk(r, job);
    PackRoundTrip(job.op, job.fd);
    var fd := UnpackFd(data);
    if UnpackOp(data) == Code(OpAccept) {
      r' := OnAccept(r, j, res);
      return;
    }
    var s := SlotOf(r, fd);
    var next;
    if UnpackOp(data) == Code(OpRecv) {
      RecvRearms(s, job);
      next := OnRecv(fd, s, res);
    } else {
      SendRearms(s, job);
      next := OnSend(fd, s, res);
    }
    r' := TakeTurn(r, j, next);
  }

  // ---------------------------------------------------------------------- runs

  function Initial(listener: nat): Ring
    requires FitsInt(listener)
  {
    Ring(listener, seq(MAXFDS, i => PeerRecord(InitialAck, [], 0, None)),
         seq(MAXFDS, i => seq(IOBUF_SIZE, k => 0)), map[], [NewJob(OpAccept, listener, 0)], 0)
  }

  lemma InitialGood(listener: nat)
    requires FitsInt(listener)
    ensures Good(Initial(listener))
  {
    var r := Initial(listener);
    assert r.jobs[0].fd == listener && JobOk(r, r.jobs[0]);
    assert HasJob(r.jobs, listener);
  }

  ghost predicate Stepped(r: Ring, r': Ring) {
    exists j :: TakenUp(r, r', j) || Finished(r, r', j) || Processed(r, r', j)
  }

  /** The states a run goes through, all of them good. */
  ghost predicate IsRun(run: seq<Ring>, listener: nat)
    requires FitsInt(listener)
  {
    0 < |run| && run[0] == Initial(listener) && Chain(run, Good, Stepped)
  }

  /** Some job makes its next step: taken up or completed by the kernel, or handled by the program. */
  method AnyStep(r: Ring) returns (r': Ring)
    requires Good(r)
    ensures Good(r') && Stepped(r, r')
  {
    assert HasJob(r.jobs, r.listener);
    var j :| 0 <= j < |r.jobs|;
    match r.jobs[j].stage {
      case Queued =>
        r' := Submit(r, j);
      case InFlight =>
        r' := Complete(r, j);
      case Completed(_) =>
        r' := Process(r, j);
    }
  }

  /** Any interleaving of kernel and program steps. */
  method Serve(listener: nat, steps: nat) returns (r: Ring, ghost run: seq<Ring>)
    requires FitsInt(listener)
    ensures Good(r) && IsRun(run, listener) && |run| == steps + 1 && r == run[steps]
  {
    InitialGood(listener);
    r := Initial(listener);
    run := [r];
    for i := 0 to steps
      invariant Good(r) && IsRun(run, listener) && |run| == i + 1 && r == run[i]
    {
      r := AnyStep(r);
      ChainGrows(run, r, Good, Stepped);
      run := run + [r];
    }
  }

  // ------------------------------------------------------- connections along a run

  /** Connections still to come will get new numbers. */
  ghost predicate Numbered(r: Ring) {
    forall fd :: fd in r.conns ==> r.conns[fd].number < r.connections
  }

  /** One connection holds `fd` in both, and its bytes on the wire have only grown in number. */
  ghost predicate WireGrown(r: Ring, r': Ring, fd: nat) {
    && fd in r.conns && fd in r'.conns && r'.conns[fd].number == r.conns[fd].number
    && r.conns[fd].got <= r'.conns[fd].got && r.conns[fd].put <= r'.conns[fd].put
  }

  lemma StepKeepsNumbers(r: Ring, r': Ring)
    requires Numbered(r) && Stepped(r, r')
    ensures Numbered(r') && r.connections <= r'.connections
  {
    var j: nat :| TakenUp(r, r', j) || Finished(r, r', j) || Processed(r, r', j);
    if Finished(r, r', j) {
      forall fd | fd in r'.conns
        ensures r'.conns[fd].number < r'.connections
      {
        assert fd in r.conns.Keys && Moved(r.conns[fd], r'.conns[fd],
                                           if fd == r.jobs[j].fd then Delivered(r'.jobs[j].stage) else 0);
      }
    }
  }

  /** A holder that was there before the step held the descriptor then, and no step takes back
      what the kernel has moved. */
  lemma WireGrowsByStep(r: Ring, r': Ring, fd: nat)
    requires Stepped(r, r') && fd in r'.conns && r'.conns[fd].number < r.connections
    ensures WireGrown(r, r', fd)
  {
    var j: nat :| TakenUp(r, r', j) || Finished(r, r', j) || Processed(r, r', j);
    if Finished(r, r', j) {
      assert fd in r.conns.Keys && Moved(r.conns[fd], r'.conns[fd],
                                         if fd == r.jobs[j].fd then Delivered(r'.jobs[j].stage) else 0);
    }
  }

  lemma {:induction false} RunKeepsNumbers(run: seq<Ring>, listener: nat, i: nat, j: nat)
    requires FitsInt(listener) && IsRun(run, listener) && i <= j < |run|
    ensures Numbered(run[i]) && Numbered(run[j]) && run[i].connections <= run[j].connections
    decreases j
  {
    if j > 0 {
      RunKeepsNumbers(run, listener, if i < j then i else j - 1, j - 1);
      assert StepAt(run, j, Stepped);
      StepKeepsNumbers(run[j - 1], run[j]);
    }
  }

  lemma WireGrownOn(a: Ring, b: Ring, c: Ring, fd: nat)
    requires WireGrown(a, b, fd) && WireGrown(b, c, fd)
    ensures WireGrown(a, c, fd)
  {
    FrontOfFront(a.conns[fd].got, b.conns[fd].got, c.conns[fd].got);
    FrontOfFront(a.conns[fd].put, b.conns[fd].put, c.conns[fd].put);
  }

  lemma WireGrownLast(run: seq<Ring>, listener: nat, i: nat, j: nat, fd: nat)
    requires FitsInt(listener) && IsRun(run, listener) && i < j < |run|
    requires fd in run[i].conns && fd in run[j].conns && run[i].conns[fd].number == run[j].conns[fd].number
    ensures WireGrown(run[j - 1], run[j], fd)
  {
    RunKeepsNumbers(run, listener, i, j - 1);
    assert StepAt(run, j, Stepped);
    assert run[i].conns[fd].number < run[i].connections;
    WireGrowsByStep(run[j - 1], run[j], fd);
  }

  lemma {:induction false} WireGrows(run: seq<Ring>, listener: nat, i: nat, j: nat, fd: nat)
    requires FitsInt(listener) && IsRun(run, listener) && i <= j < |run|
    requires fd in run[i].conns && fd in run[j].conns && run[i].conns[fd].number == run[j].conns[fd].number
    ensures WireGrown(run[i], run[j], fd)
    decreases j - i
  {
    if i < j {
      WireGrownLast(run, listener, i, j, fd);
      var prev := run[j - 1];
      assert fd in prev.conns && prev.conns[fd].number == run[i].conns[fd].number;
      WireGrows(run, listener, i, j - 1, fd);
      WireGrownOn(run[i], prev, run[j], fd);
    }
  }

  /** Over any run: between two states in which a descriptor has the same holder, everything the
      kernel delivered and sent for that connection stays, and grows; and what it sent is a front
      of the answer to what it delivered. */
  lemma RunServesPeers(run: seq<Ring>, listener: nat, i: nat, j: nat, fd: nat)
    requires FitsInt(listener) && IsRun(run, listener) && i <= j < |run|
    requires fd in run[i].conns && fd in run[j].conns && run[i].conns[fd].number == run[j].conns[fd].number
    ensures WireGrown(run[i], run[j], fd)
    ensures run[j].conns[fd].put <= Answer(run[j].conns[fd].got)
  {
    WireGrows(run, listener, i, j, fd);
    assert GoodAt(run, j, Good);
    OpenConnectionIsServed(run[j], fd);
  }

  /** In every reachable state an open connection has exactly one operation outstanding,
      the I/O buffer has no other user, and what the kernel put on the wire is a front of
      the answer to what it delivered. */
  lemma OpenConnectionIsServed(r: Ring, fd: nat)
    requires Good(r) && fd in r.conns
    ensures exists j :: 0 <= j < |r.jobs| && r.jobs[j].fd == fd && Fits(SlotOf(r, fd), r.jobs[j])
              && forall k :: 0 <= k < |r.jobs| && k != j ==> r.jobs[k].fd != fd
    ensures r.conns[fd].put <= Answer(r.conns[fd].got)
  {
    assert fd in r.conns.Keys + {r.listener};
    var j :| 0 <= j < |r.jobs| && r.jobs[j].fd == fd;
    assert JobOk(r, r.jobs[j]);
    WireIsFront(SlotOf(r, fd), r.jobs[j]);
    assert forall k :: 0 <= k < |r.jobs| && k != j ==> r.jobs[k].fd != fd;
  }

  /** The listener has exactly one accept outstanding. */
  lemma ListenerIsArmed(r: Ring)
    requires Good(r)
    ensures exists j :: 0 <= j < |r.jobs| && r.jobs[j].op == OpAccept && r.jobs[j].fd == r.listener
              && forall k :: 0 <= k < |r.jobs| && k != j ==> r.jobs[k].op != OpAccept && r.jobs[k].fd != r.listener
  {
    assert r.listener in r.conns.Keys + {r.listener};
    var j :| 0 <= j < |r.jobs| && r.jobs[j].fd == r.listener;
    assert JobOk(r, r.jobs[j]);
    forall k | 0 <= k < |r.jobs| && k != j
      ensures r.jobs[k].op != OpAccept && r.jobs[k].fd != r.listener
    {
      assert JobOk(r, r.jobs[k]);
    }
  }

  /** A closed descriptor has nothing outstanding, so nothing can reach its next owner. */
  lemma ClosedDescriptorIsQuiet(r: Ring, fd: nat)
    requires Good(r) && fd !in r.conns && fd != r.listener
    ensures !HasJob(r.jobs, fd)
  {
    forall j | 0 <= j < |r.jobs|
      ensures r.jobs[j].fd != fd
    {
      assert r.jobs[j].fd in r.conns.Keys + {r.listener};
    }
  }
}
