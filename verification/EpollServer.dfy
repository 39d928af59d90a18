/** The epoll loop: the kernel keeps the interest set and hands out batches of
    events, which the loop works through while descriptors close and are reused. */
module EpollServer {
  import opened Framing
  import opened Kernel
  import opened PeerState
  import opened PeerRuns
  import opened EventLoop

  const MAXFDS: nat := 16 * 1024

  /** One entry of a batch; the kernel may also report hang-ups, which the loop ignores. */
  datatype Ready = Ready(fd: nat, err: bool, readable: bool, writable: bool)

  datatype Loop = Loop(listener: nat, books: Books, interest: map<nat, Status>)

  /** The kernel watches the listener and every open peer, each peer for exactly what
      its parser state calls for, and nothing else. */
  ghost predicate Watching(l: Loop) {
    && |l.books.peers.now| == MAXFDS && l.listener !in l.books.owner
    && l.interest.Keys == l.books.owner.Keys + {l.listener} && l.interest[l.listener] == STATUS_R
    && forall fd :: fd in l.books.owner ==> PeerWatched(l, fd)
  }

  ghost predicate PeerWatched(l: Loop, fd: nat) {
    fd < |l.books.peers.now| && fd in l.interest && l.interest[fd] == Interest(l.books.peers.now[fd])
  }

  ghost predicate Good(l: Loop) {
    Sound(l.books) && Watching(l)
  }

  // -------------------------------------------------------------- applying verdicts

  function Set(l: Loop, fd: nat, books: Books, status: Status): Loop {
    l.(books := books,
       interest := if !status.wantRead && !status.wantWrite then l.interest - {fd} else l.interest[fd := status])
  }

  /** Modifying the interest of a descriptor the kernel does not watch would end the process. */
  function Applied(l: Loop, fd: nat, books: Books, status: Status): Loop
    requires fd in l.interest
  {
    Set(l, fd, books, status)
  }

  /** Adding a descriptor the kernel already watches would end the process. */
  function Admitted(l: Loop, fd: nat, books: Books): Loop
    requires fd !in l.interest
  {
    Set(l, fd, books, Connected().status)
  }

  /** Everyone but `fd` still holds and wants what they did. */
  ghost predicate Spares(l: Loop, l': Loop, fd: nat) {
    && l'.listener == l.listener
    && (forall x :: x in l.books.owner && x != fd ==> x in l'.books.owner && l'.books.owner[x] == l.books.owner[x])
    && (forall x :: x in l.interest && x != fd ==> x in l'.interest && l'.interest[x] == l.interest[x])
  }

  /** Deed `d` was done, and it was proper. */
  ghost predicate Did(l: Loop, l': Loop, d: Deed) {
    Good(l') && Proper(l.books, d) && l'.books == Apply(l.books, d) && Spares(l, l', d.on)
  }

  lemma SetKeys(l: Loop, fd: nat, books: Books, status: Status)
    requires fd != l.listener && l.interest.Keys == l.books.owner.Keys + {l.listener}
    requires ChangedAt(l.books, books, fd, status)
    ensures Set(l, fd, books, status).interest.Keys == books.owner.Keys + {l.listener}
  {
    var l' := Set(l, fd, books, status);
    forall x
      ensures x in l'.interest.Keys <==> x in books.owner.Keys + {l.listener}
    {
      assert x in l.interest.Keys <==> x in l.books.owner || x == l.listener;
    }
  }

  lemma PeerStaysWatched(l: Loop, fd: nat, books: Books, status: Status, x: nat)
    requires (forall y :: y in l.books.owner ==> PeerWatched(l, y)) && ChangedAt(l.books, books, fd, status)
    requires x in books.owner
    ensures PeerWatched(Set(l, fd, books, status), x)
  {
    assert x != fd ==> PeerWatched(l, x);
  }

  /** Applying a verdict keeps the interest set in agreement with the parser. */
  lemma SetStaysWatching(l: Loop, fd: nat, books: Books, status: Status)
    requires Watching(l) && fd != l.listener && ChangedAt(l.books, books, fd, status)
    ensures Watching(Set(l, fd, books, status))
  {
    SetKeys(l, fd, books, status);
    forall x | x in books.owner
      ensures PeerWatched(Set(l, fd, books, status), x)
    {
      PeerStaysWatched(l, fd, books, status, x);
    }
  }

  lemma SetSpares(l: Loop, fd: nat, books: Books, status: Status)
    requires OthersKept(l.books, books, fd)
    ensures Spares(l, Set(l, fd, books, status), fd)
  {
  }

  lemma AdmittedStaysGood(l: Loop, d: Deed)
    requires Good(l) && Proper(l.books, d) && d.Welcome? && d.on == l.listener && Joiner(l.books, d).Some?
    ensures d.answer.fd !in l.interest && Did(l, Admitted(l, d.answer.fd, Apply(l.books, d)), d)
  {
    var fd, books := d.answer.fd, Apply(l.books, d);
    WelcomeIsLocal(l.books, d);
    SetStaysWatching(l, fd, books, Connected().status);
    SetSpares(l, fd, books, Connected().status);
    assert fd !in l.interest.Keys;
  }

  /** An error closes the peer without asking the parser. */
  method CloseOnError(before: Loop, fd: nat) returns (l: Loop, d: Deed)
    requires Good(before) && fd in before.books.owner
    ensures Did(before, l, d) && d.Drop? && d.on == fd
  {
    d := Drop(fd, before.books.owner[fd]);
    CallIsLocal(before.books, d);
    SetStaysWatching(before, fd, Apply(before.books, d), STATUS_NORW);
    SetSpares(before, fd, Apply(before.books, d), STATUS_NORW);
    l := Applied(before, fd, Apply(before.books, d), STATUS_NORW);
  }

  /** A peer entry: input first, and output only if there was no input. */
  method HandlePeer(before: Loop, ev: Ready) returns (l: Loop, d: Deed)
    requires Good(before) && ev.fd in before.books.owner && (ev.readable || ev.writable)
    requires ev.readable ==> before.interest[ev.fd].wantRead
    requires ev.writable ==> before.interest[ev.fd].wantWrite
    ensures Did(before, l, d) && d.on == ev.fd && if ev.readable then d.Read? else d.Write?
  {
    var books, status;
    assert PeerWatched(before, ev.fd);
    if ev.readable {
      books, status, d := DoRead(before.books, ev.fd);
    } else {
      books, status, d := DoWrite(before.books, ev.fd);
    }
    SetStaysWatching(before, ev.fd, books, status);
    SetSpares(before, ev.fd, books, status);
    l := Applied(before, ev.fd, books, status);
  }

  /** accept: a descriptor in range joins with a fresh parser entry; nothing else changes anything. */
  method HandleAccept(before: Loop) returns (l: Loop, alive: bool, d: Deed)
    requires Good(before)
    ensures Did(before, l, d) && d.Welcome? && d.on == before.listener
    ensures alive <==> !d.answer.AcceptFailed?
  {
    var res := Accept(before.books.owner.Keys + {before.listener});
    d := Welcome(before.listener, res);
    l, alive := before, !res.AcceptFailed?;
    if res.Accepted? && res.fd < |before.books.peers.now| {
      AdmittedStaysGood(before, d);
      l := Admitted(before, res.fd, Apply(before.books, d));
    }
  }

  // ----------------------------------------------------------------- one batch

  /** What epoll_wait may return: one entry per watched descriptor at most, reporting no
      readiness that was not asked for. */
  predicate Reported(first: Loop, batch: seq<Ready>) {
    && (forall i, j :: 0 <= i < j < |batch| ==> batch[i].fd != batch[j].fd)
    && forall i :: 0 <= i < |batch| ==>
         && batch[i].fd in first.interest
         && (batch[i].readable ==> first.interest[batch[i].fd].wantRead)
         && (batch[i].writable ==> first.interest[batch[i].fd].wantWrite)
  }

  /** The loop acts on every entry but a bare hang-up, and on an error of the listener by ending. */
  predicate Acts(listener: nat, ev: Ready) {
    if ev.fd == listener then !ev.err else ev.err || ev.readable || ev.writable
  }

  /** The entries the loop acts on, in order. */
  ghost function Acted(listener: nat, batch: seq<Ready>): seq<Ready> {
    if batch == [] then []
    else
      var last := batch[|batch| - 1];
      Acted(listener, batch[..|batch| - 1]) + if Acts(listener, last) then [last] else []
  }

  /** The deed is the one the entry calls for. */
  ghost predicate Answers(d: Deed, ev: Ready, listener: nat) {
    && d.on == ev.fd
    && match d
       case Read(_, _, _) => ev.fd != listener && !ev.err && ev.readable
       case Write(_, _, _) => ev.fd != listener && !ev.err && !ev.readable && ev.writable
       case Drop(_, _) => ev.fd != listener && ev.err
       case Welcome(_, _) => ev.fd == listener && !ev.err
  }

  /** One deed for each of `entries`, in order. */
  ghost predicate OneForEach(deeds: seq<Deed>, entries: seq<Ready>, listener: nat) {
    |deeds| == |entries| && forall k :: 0 <= k < |deeds| ==> Answers(deeds[k], entries[k], listener)
  }

  /** `l` is `first` after what `entries` called for, each done for the connection that held the
      descriptor when the batch was gathered, and nothing else. */
  ghost predicate Accounted(l: Loop, first: Loop, deeds: seq<Deed>, entries: seq<Ready>) {
    && l.listener == first.listener && Reaches(first.books, deeds, l.books)
    && OneForEach(deeds, Acted(first.listener, entries), first.listener)
  }

  /** An entry not reached yet is still for the peer it was reported for, watched as it was then. */
  ghost predicate StillDue(l: Loop, first: Loop, batch: seq<Ready>, i: nat) {
    forall j :: i <= j < |batch| ==> AsAtFirst(l, first, batch[j].fd)
  }

  ghost predicate AsAtFirst(l: Loop, first: Loop, fd: nat) {
    && fd in l.interest && fd in first.interest && l.interest[fd] == first.interest[fd]
    && (fd != first.listener ==>
         fd in l.books.owner && fd in first.books.owner && l.books.owner[fd] == first.books.owner[fd])
  }

  /** The first `i` entries have been dealt with. */
  ghost predicate Midway(l: Loop, first: Loop, deeds: seq<Deed>, batch: seq<Ready>, i: nat)
    requires i <= |batch|
  {
    StillDue(l, first, batch, i) && Accounted(l, first, deeds, batch[..i])
  }

  lemma ActedNext(listener: nat, batch: seq<Ready>, i: nat)
    requires i < |batch|
    ensures Acted(listener, batch[..i + 1]) ==
            Acted(listener, batch[..i]) + if Acts(listener, batch[i]) then [batch[i]] else []
  {
    assert batch[..i + 1][..i] == batch[..i];
  }

  lemma DueAfterDeed(l: Loop, l': Loop, first: Loop, batch: seq<Ready>, i: nat)
    requires Reported(first, batch) && i < |batch| && StillDue(l, first, batch, i) && Spares(l, l', batch[i].fd)
    ensures StillDue(l', first, batch, i + 1)
  {
    forall j | i + 1 <= j < |batch|
      ensures AsAtFirst(l', first, batch[j].fd)
    {
      assert AsAtFirst(l, first, batch[j].fd) && batch[j].fd != batch[i].fd;
    }
  }

  lemma MidwayDeed(
    l: Loop, l': Loop, first: Loop, deeds: seq<Deed>, d: Deed, batch: seq<Ready>, i: nat)
    requires Reported(first, batch) && i < |batch| && Midway(l, first, deeds, batch, i)
    requires Did(l, l', d) && Answers(d, batch[i], first.listener)
    ensures Midway(l', first, deeds + [d], batch, i + 1)
  {
    assert AsAtFirst(l, first, batch[i].fd);
    ReachesOneMore(first.books, deeds, l.books, d);
    DueAfterDeed(l, l', first, batch, i);
    assert Acts(first.listener, batch[i]) by {
      assert d.Read? || d.Write? || d.Drop? || d.Welcome?;
    }
    ActedNext(first.listener, batch, i);
  }

  lemma MidwaySkip(l: Loop, first: Loop, deeds: seq<Deed>, batch: seq<Ready>, i: nat)
    requires i < |batch| && !Acts(first.listener, batch[i]) && Midway(l, first, deeds, batch, i)
    ensures Midway(l, first, deeds, batch, i + 1)
  {
    ActedNext(first.listener, batch, i);
    var acted := Acted(first.listener, batch[..i]);
    assert acted + [] == acted;
  }

  /** One entry the loop acts on. */
  method ActOn(before: Loop, ev: Ready) returns (l: Loop, alive: bool, d: Deed)
    requires Good(before) && Acts(before.listener, ev) && ev.fd in before.interest
    requires ev.readable ==> before.interest[ev.fd].wantRead
    requires ev.writable ==> before.interest[ev.fd].wantWrite
    ensures Did(before, l, d) && Answers(d, ev, before.listener)
    ensures !alive ==> d.Welcome? && d.answer.AcceptFailed?
  {
    alive := true;
    if ev.err {
      l, d := CloseOnError(before, ev.fd);
    } else if ev.fd == before.listener {
      l, alive, d := HandleAccept(before);
    } else {
      l, d := HandlePeer(before, ev);
    }
  }

  /** One entry of the batch. */
  method HandleEntry(ghost first: Loop, ghost soFar: seq<Deed>, before: Loop, batch: seq<Ready>, i: nat)
    returns (l: Loop, alive: bool, ghost deeds: seq<Deed>)
    requires Good(before) && Reported(first, batch) && i < |batch| && Midway(before, first, soFar, batch, i)
    ensures Good(l) && Midway(l, first, deeds, batch, i + 1)
  {
    l, alive, deeds := before, true, soFar;
    var ev := batch[i];
    assert AsAtFirst(before, first, ev.fd);
    if Acts(before.listener, ev) {
      var d;
      l, alive, d := ActOn(before, ev);
      MidwayDeed(before, l, first, soFar, d, batch, i);
      deeds := soFar + [d];
    } else {
      alive := ev.fd != before.listener;
      MidwaySkip(before, first, soFar, batch, i);
    }
  }

  /** A whole batch, in whatever order the kernel listed it, or as much of it as the process
      lives to handle. */
  method Batch(first: Loop, batch: seq<Ready>) returns (l: Loop, alive: bool, done: nat, ghost deeds: seq<Deed>)
    requires Good(first) && Reported(first, batch)
    ensures Good(l) && done <= |batch| && Accounted(l, first, deeds, batch[..done])
    ensures alive ==> done == |batch|
  {
    l, alive, done, deeds := first, true, 0, [];
    while done < |batch|
      invariant done <= |batch| && Good(l) && Midway(l, first, deeds, batch, done)
    {
      l, alive, deeds := HandleEntry(first, deeds, l, batch, done);
      done := done + 1;
      if !alive {
        return;
      }
    }
  }

  // --------------------------------------------------------------------- runs

  function Initial(listener: nat): Loop {
    Loop(listener, NoBooks(MAXFDS), map[listener := STATUS_R])
  }

  /** `l'` is `l` after a batch epoll_wait may return. */
  ghost predicate Passed(l: Loop, l': Loop) {
    exists deeds, batch :: Reported(l, batch) && Accounted(l', l, deeds, batch)
  }

  /** The states between batches, all of them good. */
  ghost predicate IsRun(run: seq<Loop>, listener: nat) {
    0 < |run| && run[0] == Initial(listener) && Chain(run, Good, Passed)
  }

  lemma RunBegins(listener: nat)
    ensures Good(Initial(listener)) && IsRun([Initial(listener)], listener)
  {
    NewPeersGenuine(MAXFDS);
    assert Good(Initial(listener));
  }

  /** A batch of anything epoll_wait may return. */
  method AnyBatch(l: Loop, ghost run: seq<Loop>, ghost listener: nat) returns (l': Loop, alive: bool)
    requires Good(l) && IsRun(run, listener) && l == run[|run| - 1]
    ensures Good(l') && Continued(l.books, l'.books) && (alive ==> IsRun(run + [l'], listener))
  {
    assert Reported(l, []);
    var batch :| Reported(l, batch);
    var done;
    ghost var deeds;
    l', alive, done, deeds := Batch(l, batch);
    assert batch[..|batch|] == batch;
    if alive {
      assert Passed(l, l');
      ChainGrows(run, l', Good, Passed);
    }
  }

  /** Any number of batches, each anything epoll_wait may return, until the process ends. */
  method Serve(listener: nat, batches: nat) returns (l: Loop, alive: bool, ghost run: seq<Loop>)
    ensures Good(l) && IsRun(run, listener)
    ensures if alive then |run| == batches + 1 && l == run[batches] else Continued(run[|run| - 1].books, l.books)
  {
    l, alive := Initial(listener), true;
    RunBegins(listener);
    run := [l];
    for i := 0 to batches
      invariant alive && Good(l) && IsRun(run, listener) && |run| == i + 1 && l == run[i]
    {
      l, alive := AnyBatch(l, run, listener);
      if !alive {
        return;
      }
      run := run + [l];
    }
  }

  /** In every good state: an open peer has been sent a front of the answer to its own input,
      is watched for writing exactly while the rest is pending, and otherwise has its whole
      staging buffer free. */
  lemma OpenPeerIsServed(l: Loop, fd: nat)
    requires Good(l) && fd in l.books.owner
    ensures var p, trace := l.books.peers.now[fd], l.books.peers.trace;
            && Told(trace, fd) + Pending(p) == Answer(Heard(trace, fd))
            && if Pending(p) == [] then l.interest[fd] == STATUS_R && Room(p) == SENDBUF_SIZE
               else l.interest[fd] == STATUS_W && Room(p) == 0
  {
    HolderIsAnswered(l.books, fd);
  }

  ghost function BooksOf(run: seq<Loop>): (bs: seq<Books>)
    ensures |bs| == |run| && forall k :: 0 <= k < |run| ==> bs[k] == run[k].books
  {
    seq(|run|, k requires 0 <= k < |run| => run[k].books)
  }

  lemma RunKeepsBooks(run: seq<Loop>)
    requires Chain(run, Good, Passed)
    ensures Kept(BooksOf(run))
  {
    var bs := BooksOf(run);
    forall k
      ensures GoodAt(bs, k, Sound)
    {
      assert GoodAt(run, k, Good);
    }
    forall k
      ensures StepAt(bs, k, Continued)
    {
      assert StepAt(run, k, Passed);
    }
  }

  /** Over any run: between two states in which a descriptor has the same holder, everything
      that connection sent and was sent stays, and grows; and it was sent a front of its answer. */
  lemma RunServesPeers(run: seq<Loop>, listener: nat, i: nat, j: nat, fd: nat)
    requires IsRun(run, listener) && i <= j < |run|
    requires fd in run[i].books.owner && fd in run[j].books.owner && run[i].books.owner[fd] == run[j].books.owner[fd]
    ensures Grown(run[i].books, run[j].books, fd)
    ensures Told(run[j].books.peers.trace, fd) <= Answer(Heard(run[j].books.peers.trace, fd))
  {
    RunKeepsBooks(run);
    StreamsGrow(BooksOf(run), i, j, fd);
    assert GoodAt(run, j, Good);
    HolderIsAnswered(run[j].books, fd);
  }
}
