/** One acceptor and any number of workers around the bounded queue.

  A step is one atomic action of one thread: taking or releasing the mutex, the
  test and update made under it, going to sleep on a condition variable (which
  releases the mutex in the same step), a signal sent after the mutex is
  released, one gauge update, one system call.  Sleepers may also wake for no
  reason.  A signal wakes one sleeper if there is any; an implementation that
  wakes more is one whose extra sleepers woke for no reason.
*/
module ThreadPool {
  import opened FdQueue

  datatype AcceptorPc =
    | Accepting
    | CountAccepted(fd: int)
    | CountActive(fd: int)
    | PushLock(fd: int)
    | PushTest(fd: int)
    | PushAsleep(fd: int)
    | PushRelock(fd: int)
    | PushGauge
    | PushUnlock
    | PushSignal

  datatype WorkerPc =
    | PopLock
    | PopTest
    | PopAsleep
    | PopRelock
    | PopGauge(fd: int)
    | PopUnlock(fd: int)
    | PopSignal(fd: int)
    | BusyUp(fd: int)
    | Serving(fd: int)
    | BusyDown(fd: int)
    | Closing(fd: int)
    | CountClosed

  datatype Lock = Free | ByAcceptor | ByWorker(i: nat)

  /** `open` are the connections the kernel holds open; `pushed` and `popped` record the
      queue's traffic, `accepts` and `closes` count accept and close calls. */
  datatype State = State(
    ring: Ring, lock: Lock, acceptor: AcceptorPc, workers: seq<WorkerPc>,
    open: set<int>, accepts: nat, closes: nat, pushed: seq<int>, popped: seq<int>,
    acceptedTotal: nat, refusedTotal: nat, activeGauge: int, busyGauge: int, depthGauge: nat)

  datatype Step =
    | Connect(fd: int)        // accept returns a descriptor
    | Refuse                  // accept fails for want of resources
    | AcceptorStep            // the acceptor's next action, other than accept and signal
    | AcceptorSignal(w: nat)  // signals not_empty; wakes w if anyone sleeps
    | AcceptorWakes           // wakes for no reason
    | WorkerStep(i: nat)      // worker i's next action
    | WorkerWakes(i: nat)     // wakes for no reason

  predicate SomeoneAsleep(ws: seq<WorkerPc>) {
    exists i :: 0 <= i < |ws| && ws[i] == PopAsleep
  }

  predicate Enabled(s: State, step: Step) {
    match step
    case Connect(fd) => s.acceptor == Accepting && fd !in s.open
    case Refuse => s.acceptor == Accepting
    case AcceptorStep =>
      && !s.acceptor.Accepting? && !s.acceptor.PushAsleep? && !s.acceptor.PushSignal?
      && (s.acceptor.PushLock? || s.acceptor.PushRelock? ==> s.lock == Free)
    case AcceptorSignal(w) =>
      && s.acceptor == PushSignal
      && (SomeoneAsleep(s.workers) ==> w < |s.workers| && s.workers[w] == PopAsleep)
    case AcceptorWakes => s.acceptor.PushAsleep?
    case WorkerStep(i) =>
      && i < |s.workers| && s.workers[i] != PopAsleep
      && (s.workers[i] == PopLock || s.workers[i] == PopRelock ==> s.lock == Free)
    case WorkerWakes(i) => i < |s.workers| && s.workers[i] == PopAsleep
  }

  function AcceptorNext(s: State): State
    requires s.ring.tail < |s.ring.fds|
  {
    match s.acceptor
    case CountAccepted(fd) => s.(acceptor := CountActive(fd), acceptedTotal := s.acceptedTotal + 1)
    case CountActive(fd) => s.(acceptor := PushLock(fd), activeGauge := s.activeGauge + 1)
    case PushLock(fd) => s.(acceptor := PushTest(fd), lock := ByAcceptor)
    case PushRelock(fd) => s.(acceptor := PushTest(fd), lock := ByAcceptor)
    case PushTest(fd) =>
      if s.ring.count == |s.ring.fds| then s.(acceptor := PushAsleep(fd), lock := Free)
      else s.(acceptor := PushGauge, ring := Pushed(s.ring, fd), pushed := s.pushed + [fd])
    case PushGauge => s.(acceptor := PushUnlock, depthGauge := s.ring.count)
    case PushUnlock => s.(acceptor := PushSignal, lock := Free)
    case _ => s
  }

  function WorkerNext(s: State, i: nat): State
    requires i < |s.workers| && s.ring.head < |s.ring.fds|
  {
    match s.workers[i]
    case PopLock => s.(workers := s.workers[i := PopTest], lock := ByWorker(i))
    case PopRelock => s.(workers := s.workers[i := PopTest], lock := ByWorker(i))
    case PopTest =>
      if s.ring.count == 0 then s.(workers := s.workers[i := PopAsleep], lock := Free)
      else
        var fd := s.ring.fds[s.ring.head];
        s.(workers := s.workers[i := PopGauge(fd)], ring := Popped(s.ring), popped := s.popped + [fd])
    case PopGauge(fd) => s.(workers := s.workers[i := PopUnlock(fd)], depthGauge := s.ring.count)
    case PopUnlock(fd) => s.(workers := s.workers[i := PopSignal(fd)], lock := Free)
    case PopSignal(fd) =>
      s.(workers := s.workers[i := BusyUp(fd)],
         acceptor := if s.acceptor.PushAsleep? then PushRelock(s.acceptor.fd) else s.acceptor)
    case BusyUp(fd) => s.(workers := s.workers[i := Serving(fd)], busyGauge := s.busyGauge + 1)
    case Serving(fd) => s.(workers := s.workers[i := BusyDown(fd)])
    case BusyDown(fd) => s.(workers := s.workers[i := Closing(fd)], busyGauge := s.busyGauge - 1)
    case Closing(fd) =>
      s.(workers := s.workers[i := CountClosed], open := s.open - {fd}, closes := s.closes + 1)
    case CountClosed => s.(workers := s.workers[i := PopLock], activeGauge := s.activeGauge - 1)
    case PopAsleep => s
  }

  function Next(s: State, step: Step): State
    requires Enabled(s, step) && s.ring.tail < |s.ring.fds| && s.ring.head < |s.ring.fds|
  {
    match step
    case Connect(fd) => s.(acceptor := CountAccepted(fd), open := s.open + {fd}, accepts := s.accepts + 1)
    case Refuse => s.(refusedTotal := s.refusedTotal + 1)
    case AcceptorStep => AcceptorNext(s)
    case AcceptorSignal(w) =>
      s.(acceptor := Accepting,
         workers := if SomeoneAsleep(s.workers) then s.workers[w := PopRelock] else s.workers)
    case AcceptorWakes => s.(acceptor := PushRelock(s.acceptor.fd))
    case WorkerStep(i) => WorkerNext(s, i)
    case WorkerWakes(i) => s.(workers := s.workers[i := PopRelock])
  }

  // ------------------------------------------------------------------- counting

  function CountIf(ws: seq<WorkerPc>, p: WorkerPc -> bool): nat {
    if ws == [] then 0 else CountIf(ws[..|ws| - 1], p) + if p(ws[|ws| - 1]) then 1 else 0
  }

  lemma {:induction false} CountUpdate(ws: seq<WorkerPc>, p: WorkerPc -> bool, i: nat, w: WorkerPc)
    requires i < |ws|
    ensures CountIf(ws[i := w], p) == CountIf(ws, p) - (if p(ws[i]) then 1 else 0) + (if p(w) then 1 else 0)
  {
    var n := |ws| - 1;
    if i == n {
      assert ws[i := w][..n] == ws[..n];
    } else {
      CountUpdate(ws[..n], p, i, w);
      assert ws[i := w][..n] == ws[..n][i := w];
    }
  }

  lemma {:induction false} CountBound(ws: seq<WorkerPc>, p: WorkerPc -> bool)
    ensures CountIf(ws, p) <= |ws|
    ensures CountIf(ws, p) > 0 <==> exists i :: 0 <= i < |ws| && p(ws[i])
  {
    if ws != [] {
      var n := |ws| - 1;
      CountBound(ws[..n], p);
      if i :| 0 <= i < |ws| && p(ws[i]) && i < n {
        assert p(ws[..n][i]);
      }
      if i :| 0 <= i < n && p(ws[..n][i]) {
        assert p(ws[i]);
      }
    }
  }

  predicate Holds(w: WorkerPc, fd: int) {
    match w
    case PopGauge(d) => d == fd
    case PopUnlock(d) => d == fd
    case PopSignal(d) => d == fd
    case BusyUp(d) => d == fd
    case Serving(d) => d == fd
    case BusyDown(d) => d == fd
    case Closing(d) => d == fd
    case _ => false
  }

  function HoldsFd(fd: int): WorkerPc -> bool {
    w => Holds(w, fd)
  }

  predicate AcceptorHolds(a: AcceptorPc, fd: int) {
    match a
    case CountAccepted(d) => d == fd
    case CountActive(d) => d == fd
    case PushLock(d) => d == fd
    case PushTest(d) => d == fd
    case PushAsleep(d) => d == fd
    case PushRelock(d) => d == fd
    case _ => false
  }

  predicate AcceptorHasOne(a: AcceptorPc) {
    !a.Accepting? && a != PushGauge && a != PushUnlock && a != PushSignal
  }

  predicate HasOne(w: WorkerPc) {
    !Heading(w) && w != PopAsleep && w != CountClosed
  }

  // ----------------------------------------------------------------- invariants

  predicate Heading(w: WorkerPc) {
    w == PopLock || w == PopTest || w == PopRelock
  }

  predicate Unsignalled(w: WorkerPc) {
    w.PopGauge? || w.PopUnlock? || w.PopSignal?
  }

  predicate WorkerInside(w: WorkerPc) {
    w == PopTest || w.PopGauge? || w.PopUnlock?
  }

  predicate Busy(w: WorkerPc) {
    w.Serving? || w.BusyDown?
  }

  predicate Uncounted(w: WorkerPc) {
    w == CountClosed
  }

  predicate AtGauge(w: WorkerPc) {
    w.PopGauge?
  }

  predicate AcceptorInside(a: AcceptorPc) {
    a.PushTest? || a == PushGauge || a == PushUnlock
  }

  function SignalDue(a: AcceptorPc): nat {
    if a == PushGauge || a == PushUnlock || a == PushSignal then 1 else 0
  }

  /** The mutex is held by exactly the thread inside a critical section. */
  ghost predicate Exclusive(s: State) {
    && (s.lock == ByAcceptor <==> AcceptorInside(s.acceptor))
    && (s.lock.ByWorker? ==> s.lock.i < |s.workers|)
    && forall i :: 0 <= i < |s.workers| ==> (s.lock == ByWorker(i) <==> WorkerInside(s.workers[i]))
  }

  /** Everything pushed has been popped, in order, or is still queued. */
  ghost predicate Fifo(s: State) {
    WellFormed(s.ring) && s.pushed == s.popped + Contents(s.ring)
  }

  /** While anyone sleeps, each queued connection has a worker on its way or a signal coming. */
  ghost predicate NoLostWakeup(s: State) {
    SomeoneAsleep(s.workers) ==> s.ring.count <= CountIf(s.workers, Heading) + SignalDue(s.acceptor)
  }

  /** While the acceptor sleeps beside a free slot, a worker that popped has yet to signal. */
  ghost predicate NoLostSlot(s: State) {
    s.acceptor.PushAsleep? && s.ring.count < |s.ring.fds| ==> CountIf(s.workers, Unsignalled) > 0
  }

  /** How often `fd` occurs: in the acceptor's hand, in the queue, in workers' hands. */
  ghost function Places(s: State, fd: int): nat
    requires WellFormed(s.ring)
  {
    (if AcceptorHolds(s.acceptor, fd) then 1 else 0) + multiset(Contents(s.ring))[fd] + CountIf(s.workers, HoldsFd(fd))
  }

  /** An open connection is in exactly one of those places, a closed one in none. */
  ghost predicate InOnePlace(s: State, fd: int)
    requires WellFormed(s.ring)
  {
    Places(s, fd) == if fd in s.open then 1 else 0
  }

  /** As many connections are open as there are hands and queue slots full. */
  ghost predicate AllAccounted(s: State) {
    && s.accepts == s.closes + |s.open|
    && |s.open| == (if AcceptorHasOne(s.acceptor) then 1 else 0) + s.ring.count + CountIf(s.workers, HasOne)
  }

  ghost predicate Conserved(s: State)
    requires WellFormed(s.ring)
  {
    AllAccounted(s) && forall fd :: InOnePlace(s, fd)
  }

  /** The busy gauge counts the workers between its two updates. */
  ghost predicate BusyRight(s: State) {
    s.busyGauge == CountIf(s.workers, Busy)
  }

  /** The connection counters are off by exactly the updates still to come. */
  ghost predicate TotalsRight(s: State) {
    && s.acceptedTotal == s.accepts - (if s.acceptor.CountAccepted? then 1 else 0)
    && s.activeGauge == s.accepts - s.closes + CountIf(s.workers, Uncounted)
                        - (if s.acceptor.CountAccepted? || s.acceptor.CountActive? then 1 else 0)
  }

  /** The depth gauge is right unless the thread about to set it is inside the lock. */
  ghost predicate DepthRight(s: State) {
    s.depthGauge == s.ring.count || s.acceptor == PushGauge || CountIf(s.workers, AtGauge) > 0
  }

  ghost predicate Gauged(s: State) {
    BusyRight(s) && TotalsRight(s) && DepthRight(s)
  }

  ghost predicate Inv(s: State) {
    && 0 < |s.workers| && Exclusive(s) && Fifo(s) && NoLostWakeup(s) && NoLostSlot(s) && Conserved(s) && Gauged(s)
  }

  // ------------------------------------------------------- every step keeps them

  lemma ExclusiveByAcceptor(s: State)
    requires Exclusive(s) && WellFormed(s.ring) && Enabled(s, AcceptorStep)
    ensures Exclusive(AcceptorNext(s)) && AcceptorNext(s).workers == s.workers
  {
  }

  lemma ExclusiveByWorker(s: State, i: nat)
    requires Exclusive(s) && WellFormed(s.ring) && Enabled(s, WorkerStep(i))
    ensures Exclusive(WorkerNext(s, i)) && |WorkerNext(s, i).workers| == |s.workers|
  {
  }

  lemma ExclusiveKept(s: State, step: Step)
    requires Exclusive(s) && WellFormed(s.ring) && Enabled(s, step)
    ensures Exclusive(Next(s, step)) && |Next(s, step).workers| == |s.workers|
  {
    match step {
      case AcceptorStep =>
        ExclusiveByAcceptor(s);
      case WorkerStep(i) =>
        ExclusiveByWorker(s, i);
      case _ =>
    }
  }

  lemma FifoKept(s: State, step: Step)
    requires Fifo(s) && Enabled(s, step)
    ensures Fifo(Next(s, step)) && |Next(s, step).ring.fds| == |s.ring.fds|
  {
    if step == AcceptorStep && s.acceptor.PushTest? && s.ring.count < |s.ring.fds| {
      PushAppends(s.ring, s.acceptor.fd);
      assert s.pushed + [s.acceptor.fd] == s.popped + (Contents(s.ring) + [s.acceptor.fd]);
    } else if step.WorkerStep? && s.workers[step.i] == PopTest && s.ring.count > 0 {
      PopTakesFirst(s.ring);
      var fd := s.ring.fds[s.ring.head];
      assert s.popped + ([fd] + Contents(Popped(s.ring))) == (s.popped + [fd]) + Contents(Popped(s.ring));
    }
  }

  lemma AsleepUpdate(ws: seq<WorkerPc>, i: nat, w: WorkerPc)
    requires i < |ws| && w != PopAsleep && SomeoneAsleep(ws[i := w])
    ensures SomeoneAsleep(ws)
  {
    var k :| 0 <= k < |ws| && ws[i := w][k] == PopAsleep;
    assert ws[k] == PopAsleep;
  }

  lemma WakeupKeptByWorker(s: State, i: nat)
    requires NoLostWakeup(s) && WellFormed(s.ring) && Enabled(s, WorkerStep(i))
    ensures NoLostWakeup(WorkerNext(s, i))
  {
    var s' := WorkerNext(s, i);
    CountUpdate(s.workers, Heading, i, s'.workers[i]);
    if SomeoneAsleep(s'.workers) && s'.workers[i] != PopAsleep {
      AsleepUpdate(s.workers, i, s'.workers[i]);
    }
  }

  lemma WakeupKept(s: State, step: Step)
    requires NoLostWakeup(s) && WellFormed(s.ring) && Enabled(s, step)
    ensures NoLostWakeup(Next(s, step))
  {
    match step {
      case WorkerStep(i) =>
        WakeupKeptByWorker(s, i);
      case WorkerWakes(i) =>
        CountUpdate(s.workers, Heading, i, PopRelock);
      case AcceptorSignal(w) =>
        if SomeoneAsleep(s.workers) {
          CountUpdate(s.workers, Heading, w, PopRelock);
        }
      case _ =>
    }
  }

  lemma SlotKept(s: State, step: Step)
    requires NoLostSlot(s) && WellFormed(s.ring) && Enabled(s, step)
    ensures NoLostSlot(Next(s, step))
  {
    var s' := Next(s, step);
    match step {
      case WorkerStep(i) =>
        CountUpdate(s.workers, Unsignalled, i, s'.workers[i]);
      case WorkerWakes(i) =>
        CountUpdate(s.workers, Unsignalled, i, PopRelock);
      case AcceptorSignal(w) =>
      case _ =>
    }
  }

  lemma PlaceKeptByPush(s: State, fd: int)
    requires Fifo(s) && InOnePlace(s, fd) && s.acceptor.PushTest? && s.ring.count < |s.ring.fds|
    ensures WellFormed(AcceptorNext(s).ring) && InOnePlace(AcceptorNext(s), fd)
  {
    var d := s.acceptor.fd;
    PushAppends(s.ring, d);
    assert multiset(Contents(s.ring) + [d])[fd] == multiset(Contents(s.ring))[fd] + multiset{d}[fd];
  }

  lemma PlaceKeptByAcceptor(s: State, fd: int)
    requires Fifo(s) && InOnePlace(s, fd) && Enabled(s, AcceptorStep)
    ensures WellFormed(Next(s, AcceptorStep).ring) && InOnePlace(Next(s, AcceptorStep), fd)
  {
    if s.acceptor.PushTest? && s.ring.count < |s.ring.fds| {
      PlaceKeptByPush(s, fd);
    } else {
      assert AcceptorNext(s).ring == s.ring;
    }
  }

  lemma PlaceKeptByPop(s: State, i: nat, fd: int)
    requires Fifo(s) && InOnePlace(s, fd) && i < |s.workers| && s.workers[i] == PopTest && s.ring.count > 0
    ensures WellFormed(WorkerNext(s, i).ring) && InOnePlace(WorkerNext(s, i), fd)
  {
    var s', d := WorkerNext(s, i), s.ring.fds[s.ring.head];
    CountUpdate(s.workers, HoldsFd(fd), i, PopGauge(d));
    PopTakesFirst(s.ring);
    assert multiset([d] + Contents(s'.ring))[fd] == multiset{d}[fd] + multiset(Contents(s'.ring))[fd];
  }

  lemma PlaceKeptByWorker(s: State, i: nat, fd: int)
    requires Fifo(s) && InOnePlace(s, fd) && Enabled(s, WorkerStep(i))
    ensures WellFormed(Next(s, WorkerStep(i)).ring) && InOnePlace(Next(s, WorkerStep(i)), fd)
  {
    if s.workers[i] == PopTest && s.ring.count > 0 {
      PlaceKeptByPop(s, i, fd);
    } else {
      var s' := WorkerNext(s, i);
      assert s'.ring == s.ring;
      CountUpdate(s.workers, HoldsFd(fd), i, s'.workers[i]);
    }
  }

  lemma PlaceKept(s: State, step: Step, fd: int)
    requires Fifo(s) && InOnePlace(s, fd) && Enabled(s, step)
    ensures WellFormed(Next(s, step).ring) && InOnePlace(Next(s, step), fd)
  {
    match step {
      case AcceptorStep => PlaceKeptByAcceptor(s, fd);
      case WorkerStep(i) => PlaceKeptByWorker(s, i, fd);
      case WorkerWakes(i) => CountUpdate(s.workers, HoldsFd(fd), i, PopRelock);
      case AcceptorSignal(w) =>
        if SomeoneAsleep(s.workers) {
          CountUpdate(s.workers, HoldsFd(fd), w, PopRelock);
        }
      case _ =>
    }
  }

  /** A worker's connection is open, so the close that ends it closes something. */
  lemma HeldIsOpen(s: State, i: nat, fd: int)
    requires WellFormed(s.ring) && InOnePlace(s, fd) && i < |s.workers| && Holds(s.workers[i], fd)
    ensures fd in s.open
  {
    CountUpdate(s.workers, HoldsFd(fd), i, PopLock);
  }

  lemma AccountedByClose(s: State, i: nat)
    requires WellFormed(s.ring) && AllAccounted(s)
    requires i < |s.workers| && s.workers[i].Closing? && s.workers[i].fd in s.open
    ensures AllAccounted(WorkerNext(s, i))
  {
    CountUpdate(s.workers, HasOne, i, CountClosed);
  }

  lemma AccountedByPop(s: State, i: nat)
    requires WellFormed(s.ring) && AllAccounted(s) && i < |s.workers| && s.workers[i] == PopTest && s.ring.count > 0
    ensures AllAccounted(WorkerNext(s, i))
  {
    CountUpdate(s.workers, HasOne, i, PopGauge(s.ring.fds[s.ring.head]));
  }

  lemma AccountedByWorker(s: State, i: nat)
    requires WellFormed(s.ring) && AllAccounted(s) && Enabled(s, WorkerStep(i))
    requires s.workers[i].Closing? ==> s.workers[i].fd in s.open
    ensures AllAccounted(WorkerNext(s, i))
  {
    if s.workers[i].Closing? {
      AccountedByClose(s, i);
    } else if s.workers[i] == PopTest && s.ring.count > 0 {
      AccountedByPop(s, i);
    } else {
      CountUpdate(s.workers, HasOne, i, WorkerNext(s, i).workers[i]);
    }
  }

  lemma AccountedKept(s: State, step: Step)
    requires Fifo(s) && Conserved(s) && Enabled(s, step)
    ensures AllAccounted(Next(s, step))
  {
    match step {
      case WorkerStep(i) =>
        if s.workers[i].Closing? {
          HeldIsOpen(s, i, s.workers[i].fd);
        }
        AccountedByWorker(s, i);
      case WorkerWakes(i) =>
        CountUpdate(s.workers, HasOne, i, PopRelock);
      case AcceptorSignal(w) =>
        if SomeoneAsleep(s.workers) {
          CountUpdate(s.workers, HasOne, w, PopRelock);
        }
      case _ =>
    }
  }

  lemma ConservedKept(s: State, step: Step)
    requires Fifo(s) && Conserved(s) && Enabled(s, step)
    ensures WellFormed(Next(s, step).ring) && Conserved(Next(s, step))
  {
    FifoKept(s, step);
    AccountedKept(s, step);
    forall fd {
      PlaceKept(s, step, fd);
    }
  }

  lemma BusyKept(s: State, step: Step)
    requires BusyRight(s) && WellFormed(s.ring) && Enabled(s, step)
    ensures BusyRight(Next(s, step))
  {
    match step {
      case WorkerStep(i) =>
        CountUpdate(s.workers, Busy, i, Next(s, step).workers[i]);
      case WorkerWakes(i) =>
        CountUpdate(s.workers, Busy, i, PopRelock);
      case AcceptorSignal(w) =>
        if SomeoneAsleep(s.workers) {
          CountUpdate(s.workers, Busy, w, PopRelock);
        }
      case _ =>
    }
  }

  lemma TotalsKeptByWorker(s: State, i: nat)
    requires TotalsRight(s) && WellFormed(s.ring) && Enabled(s, WorkerStep(i))
    ensures TotalsRight(WorkerNext(s, i))
  {
    CountUpdate(s.workers, Uncounted, i, WorkerNext(s, i).workers[i]);
  }

  lemma TotalsKept(s: State, step: Step)
    requires TotalsRight(s) && WellFormed(s.ring) && Enabled(s, step)
    ensures TotalsRight(Next(s, step))
  {
    match step {
      case WorkerStep(i) =>
        TotalsKeptByWorker(s, i);
      case WorkerWakes(i) =>
        CountUpdate(s.workers, Uncounted, i, PopRelock);
      case AcceptorSignal(w) =>
        if SomeoneAsleep(s.workers) {
          CountUpdate(s.workers, Uncounted, w, PopRelock);
        }
      case _ =>
    }
  }

  lemma DepthKept(s: State, step: Step)
    requires DepthRight(s) && WellFormed(s.ring) && Enabled(s, step)
    ensures DepthRight(Next(s, step))
  {
    match step {
      case WorkerStep(i) =>
        CountUpdate(s.workers, AtGauge, i, Next(s, step).workers[i]);
      case WorkerWakes(i) =>
        CountUpdate(s.workers, AtGauge, i, PopRelock);
      case AcceptorSignal(w) =>
        if SomeoneAsleep(s.workers) {
          CountUpdate(s.workers, AtGauge, w, PopRelock);
        }
      case _ =>
    }
  }

  // ---------------------------------------------------------------------- runs

  function Start(workers: nat, capacity: nat): State {
    State(Ring(seq(capacity, i => 0), 0, 0, 0), Free, Accepting, seq(workers, i => PopLock),
          {}, 0, 0, [], [], 0, 0, 0, 0, 0)
  }

  /** A run: from the start, each state follows from the one before by an enabled step. */
  ghost predicate IsRun(workers: nat, capacity: nat, states: seq<State>) {
    && 0 < |states| && states[0] == Start(workers, capacity)
    && forall k :: 0 <= k < |states| - 1 ==> Follows(states[k], states[k + 1])
  }

  ghost predicate Follows(s: State, s': State) {
    exists step :: Enabled(s, step) && s.ring.tail < |s.ring.fds| && s.ring.head < |s.ring.fds| && s' == Next(s, step)
  }

  lemma StartInv(workers: nat, capacity: nat)
    requires workers >= 1 && capacity >= 1
    ensures Inv(Start(workers, capacity))
  {
    var s := Start(workers, capacity);
    NobodyYet(s.workers, Busy);
    NobodyYet(s.workers, Uncounted);
    NobodyYet(s.workers, HasOne);
    forall fd
      ensures InOnePlace(s, fd)
    {
      NobodyYet(s.workers, HoldsFd(fd));
    }
    assert Contents(s.ring) == [];
    assert multiset(Contents(s.ring)) == multiset{};
  }

  lemma {:induction false} NobodyYet(ws: seq<WorkerPc>, p: WorkerPc -> bool)
    requires !p(PopLock) && forall i :: 0 <= i < |ws| ==> ws[i] == PopLock
    ensures CountIf(ws, p) == 0
  {
    if ws != [] {
      NobodyYet(ws[..|ws| - 1], p);
    }
  }

  lemma InvKept(s: State, step: Step)
    requires Inv(s) && Enabled(s, step)
    ensures Inv(Next(s, step)) && |Next(s, step).workers| == |s.workers| && |Next(s, step).ring.fds| == |s.ring.fds|
  {
    ExclusiveKept(s, step);
    FifoKept(s, step);
    WakeupKept(s, step);
    SlotKept(s, step);
    ConservedKept(s, step);
    BusyKept(s, step);
    TotalsKept(s, step);
    DepthKept(s, step);
  }

  /** Every state of every run, for every number of workers and queue size. */
  lemma {:induction false} AlwaysInv(workers: nat, capacity: nat, states: seq<State>, k: nat)
    requires workers >= 1 && capacity >= 1 && IsRun(workers, capacity, states) && k < |states|
    ensures Inv(states[k]) && |states[k].workers| == workers && |states[k].ring.fds| == capacity
  {
    if k == 0 {
      StartInv(workers, capacity);
    } else {
      AlwaysInv(workers, capacity, states, k - 1);
      assert Follows(states[k - 1], states[k - 1 + 1]);
      var step :| Enabled(states[k - 1], step) && states[k] == Next(states[k - 1], step);
      InvKept(states[k - 1], step);
    }
  }

  // ------------------------------------------------------------------- theorems

  /** A step of the pool's own: not a new connection, not a spurious wakeup, and not the end
      of a peer's conversation. */
  predicate Own(s: State, step: Step) {
    match step
    case AcceptorStep => true
    case AcceptorSignal(_) => true
    case WorkerStep(i) => i < |s.workers| && !s.workers[i].Serving?
    case _ => false
  }

  ghost predicate CanMove(s: State) {
    exists step :: Enabled(s, step) && Own(s, step)
  }

  lemma HolderMoves(s: State)
    requires Exclusive(s) && s.lock != Free
    ensures CanMove(s)
  {
    if s.lock == ByAcceptor {
      assert Enabled(s, AcceptorStep) && Own(s, AcceptorStep);
    } else {
      var step := WorkerStep(s.lock.i);
      assert WorkerInside(s.workers[s.lock.i]);
      assert Enabled(s, step) && Own(s, step);
    }
  }

  lemma SignallerMoves(s: State)
    requires s.acceptor == PushSignal
    ensures CanMove(s)
  {
    var w := if SomeoneAsleep(s.workers) then var w :| 0 <= w < |s.workers| && s.workers[w] == PopAsleep; w else 0;
    assert Enabled(s, AcceptorSignal(w)) && Own(s, AcceptorSignal(w));
  }

  lemma SomeWorker(ws: seq<WorkerPc>, p: WorkerPc -> bool) returns (i: nat)
    requires CountIf(ws, p) > 0
    ensures i < |ws| && p(ws[i])
  {
    CountBound(ws, p);
    i :| 0 <= i < |ws| && p(ws[i]);
  }

  /** Queued work beside a sleeping worker, or a free slot beside the sleeping acceptor, never
      waits for anything but the pool's own next step. */
  lemma NeverStuck(s: State)
    requires Inv(s)
    requires (s.ring.count > 0 && SomeoneAsleep(s.workers)) || (s.acceptor.PushAsleep? && s.ring.count < |s.ring.fds|)
    ensures CanMove(s)
  {
    if s.lock != Free {
      HolderMoves(s);
    } else if s.acceptor == PushSignal {
      SignallerMoves(s);
    } else if s.ring.count > 0 && SomeoneAsleep(s.workers) {
      var i := SomeWorker(s.workers, Heading);
      assert Enabled(s, WorkerStep(i)) && Own(s, WorkerStep(i));
    } else {
      var i := SomeWorker(s.workers, Unsignalled);
      assert Enabled(s, WorkerStep(i)) && Own(s, WorkerStep(i));
    }
  }

  // ------------------------------------------------------------------ coming to rest

  /** How far a worker is from serving or sleeping.  Falling asleep leaves it with what it takes
      to serve once; a signal to the acceptor pays for the acceptor's getting up. */
  function WorkerWork(w: WorkerPc): nat {
    match w
    case Serving(_) => 0
    case BusyUp(_) => 1
    case PopSignal(_) => 4
    case PopUnlock(_) => 5
    case PopGauge(_) => 6
    case PopAsleep => 6
    case PopTest => 7
    case PopLock => 8
    case PopRelock => 8
    case CountClosed => 9
    case Closing(_) => 10
    case BusyDown(_) => 11
  }

  /** The same for the acceptor, whose signal pays for a worker's getting up. */
  function AcceptorWork(a: AcceptorPc): nat {
    match a
    case Accepting => 0
    case PushSignal => 3
    case PushUnlock => 4
    case PushGauge => 5
    case PushAsleep(_) => 5
    case PushTest(_) => 6
    case PushLock(_) => 7
    case PushRelock(_) => 7
    case CountActive(_) => 8
    case CountAccepted(_) => 9
  }

  function WorkersWork(ws: seq<WorkerPc>): nat {
    if ws == [] then 0 else WorkersWork(ws[..|ws| - 1]) + WorkerWork(ws[|ws| - 1])
  }

  function Work(s: State): nat {
    AcceptorWork(s.acceptor) + WorkersWork(s.workers)
  }

  lemma {:induction false} WorkUpdate(ws: seq<WorkerPc>, i: nat, w: WorkerPc)
    requires i < |ws|
    ensures WorkersWork(ws[i := w]) == WorkersWork(ws) - WorkerWork(ws[i]) + WorkerWork(w)
  {
    var n := |ws| - 1;
    if i == n {
      assert ws[i := w][..n] == ws[..n];
    } else {
      WorkUpdate(ws[..n], i, w);
      assert ws[i := w][..n] == ws[..n][i := w];
    }
  }

  lemma {:induction false} WorkBound(ws: seq<WorkerPc>)
    ensures WorkersWork(ws) <= 11 * |ws|
  {
    if ws != [] {
      WorkBound(ws[..|ws| - 1]);
    }
  }

  lemma WorkerStepDescends(s: State, i: nat)
    requires WellFormed(s.ring) && Enabled(s, WorkerStep(i)) && !s.workers[i].Serving?
    ensures Work(WorkerNext(s, i)) < Work(s) && |WorkerNext(s, i).workers| == |s.workers|
  {
    WorkUpdate(s.workers, i, WorkerNext(s, i).workers[i]);
  }

  /** Every step of the pool's own leaves it less to do. */
  lemma OwnStepDescends(s: State, step: Step)
    requires WellFormed(s.ring) && Enabled(s, step) && Own(s, step)
    ensures Work(Next(s, step)) < Work(s)
  {
    match step {
      case WorkerStep(i) =>
        WorkerStepDescends(s, i);
      case AcceptorSignal(w) =>
        if SomeoneAsleep(s.workers) {
          WorkUpdate(s.workers, w, PopRelock);
        }
      case AcceptorStep =>
    }
  }

  /** Left to itself from `s`, the pool may take these steps, one after the other. */
  ghost predicate OwnSteps(s: State, steps: seq<Step>)
    requires Inv(s)
    decreases |steps|
  {
    steps == [] ||
    (Enabled(s, steps[0]) && Own(s, steps[0]) && (InvKept(s, steps[0]); OwnSteps(Next(s, steps[0]), steps[1..])))
  }

  /** Without a new connection, the end of a conversation or a spurious wakeup, the pool is at rest
      after a number of steps that depends on the number of workers alone, whoever is scheduled. */
  lemma {:induction false} ComesToRest(s: State, steps: seq<Step>)
    requires Inv(s) && OwnSteps(s, steps)
    ensures |steps| <= Work(s) <= 11 * |s.workers| + 9
    decreases |steps|
  {
    WorkBound(s.workers);
    if steps != [] {
      InvKept(s, steps[0]);
      OwnStepDescends(s, steps[0]);
      ComesToRest(Next(s, steps[0]), steps[1..]);
    }
  }

  lemma WorkerMoves(s: State, i: nat)
    requires s.lock == Free && i < |s.workers| && s.workers[i] != PopAsleep && !s.workers[i].Serving?
    ensures CanMove(s)
  {
    assert Enabled(s, WorkerStep(i)) && Own(s, WorkerStep(i));
  }

  lemma AcceptorMoves(s: State)
    requires s.lock == Free && s.acceptor != Accepting && !s.acceptor.PushAsleep? && s.acceptor != PushSignal
    ensures CanMove(s)
  {
    assert Enabled(s, AcceptorStep) && Own(s, AcceptorStep);
  }

  /** At rest every worker serves or sleeps, nobody sleeps while anything is queued, and the acceptor
      waits for a connection or for a slot of a queue that is full. */
  lemma RestIsEarned(s: State)
    requires Inv(s) && !CanMove(s)
    ensures s.lock == Free
    ensures forall i :: 0 <= i < |s.workers| ==>
              s.workers[i].Serving? || (s.workers[i] == PopAsleep && s.ring.count == 0)
    ensures s.acceptor == Accepting || (s.acceptor.PushAsleep? && s.ring.count == |s.ring.fds|)
  {
    if s.lock != Free {
      HolderMoves(s);
    }
    forall i | 0 <= i < |s.workers|
      ensures s.workers[i].Serving? || (s.workers[i] == PopAsleep && s.ring.count == 0)
    {
      RestOfWorker(s, i);
    }
    RestOfAcceptor(s);
  }

  lemma RestOfWorker(s: State, i: nat)
    requires Inv(s) && !CanMove(s) && s.lock == Free && i < |s.workers|
    ensures s.workers[i].Serving? || (s.workers[i] == PopAsleep && s.ring.count == 0)
  {
    if s.workers[i] == PopAsleep {
      assert SomeoneAsleep(s.workers);
      if s.ring.count > 0 {
        NeverStuck(s);
      }
    } else if !s.workers[i].Serving? {
      WorkerMoves(s, i);
    }
  }

  lemma RestOfAcceptor(s: State)
    requires Inv(s) && !CanMove(s) && s.lock == Free
    ensures s.acceptor == Accepting || (s.acceptor.PushAsleep? && s.ring.count == |s.ring.fds|)
  {
    if s.acceptor == PushSignal {
      SignallerMoves(s);
    } else if s.acceptor.PushAsleep? {
      if s.ring.count < |s.ring.fds| {
        NeverStuck(s);
      }
    } else if s.acceptor != Accepting {
      AcceptorMoves(s);
    }
  }

  /** The acceptor and all workers are never asleep together. */
  lemma NeverAllAsleep(s: State)
    requires Inv(s)
    ensures !(s.acceptor.PushAsleep? && forall i :: 0 <= i < |s.workers| ==> s.workers[i] == PopAsleep)
  {
    CountBound(s.workers, Heading);
    CountBound(s.workers, Unsignalled);
    assert s.workers[0] == PopAsleep ==> SomeoneAsleep(s.workers);
  }

  /** No connection is in two workers' hands. */
  lemma ServedByOne(s: State, i: nat, j: nat, fd: int)
    requires Inv(s) && i < j < |s.workers| && Holds(s.workers[i], fd)
    ensures !Holds(s.workers[j], fd)
  {
    assert InOnePlace(s, fd);
    CountUpdate(s.workers, HoldsFd(fd), i, PopLock);
    CountUpdate(s.workers[i := PopLock], HoldsFd(fd), j, PopLock);
  }

  /** What an operator may read off the pool at any moment of any run. */
  lemma PoolBounds(workers: nat, capacity: nat, states: seq<State>, k: nat)
    requires workers >= 1 && capacity >= 1 && IsRun(workers, capacity, states) && k < |states|
    ensures var s := states[k];
            && s.accepts - s.closes == |s.open| <= capacity + workers + 1
            && 0 <= s.busyGauge <= workers
            && (s.lock == Free ==> s.depthGauge == s.ring.count)
            && s.popped <= s.pushed && |s.pushed| - |s.popped| == s.ring.count <= capacity
  {
    AlwaysInv(workers, capacity, states, k);
    var s := states[k];
    CountBound(s.workers, HasOne);
    CountBound(s.workers, Busy);
    CountBound(s.workers, AtGauge);
  }
}
