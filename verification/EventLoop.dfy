/** What the select and epoll loops have in common.

  A loop does one thing at a time: call a handler for a peer, drop a peer, accept.
  Each such deed, together with what the kernel answered, says exactly what becomes
  of the parser table and of who holds which descriptor (`Apply`), so that a stretch
  of a run is its starting point with a sequence of deeds replayed.  Connections are
  numbered in the order of their arrival: `owner` tells the present holder of a
  descriptor from its past ones.
*/
module EventLoop {
  import opened Framing
  import opened Kernel
  import opened PeerState
  import opened PeerRuns
  import opened Words

  datatype Books = Books(peers: Peers, owner: map<nat, nat>, connections: nat)

  datatype Deed =
    | Read(on: nat, heldBy: nat, got: RecvResult)   // the input handler, and what recv answered
    | Write(on: nat, heldBy: nat, took: SendResult) // the output handler, and what send answered
    | Drop(on: nat, heldBy: nat)                    // closed without asking the parser
    | Welcome(on: nat, answer: AcceptResult)        // accept, called on the listener

  // ------------------------------------------------------------------- one deed

  /** The parser entry and the verdict a deed leaves its peer with. */
  function Result(p: PeerValue, d: Deed): Outcome
    requires !d.Welcome?
  {
    match d
    case Read(_, _, got) => ReadyRecv(p, got)
    case Write(_, _, took) => ReadySend(p, took)
    case Drop(_, _) => Outcome(p, STATUS_NORW)
  }

  /** What a deed adds to the history. */
  function Events(p: PeerValue, d: Deed): seq<Event> {
    match d
    case Read(fd, _, got) => RecvEvents(fd, p, got)
    case Write(fd, _, took) => if MayWrite(took, |Pending(p)|) then SendEvents(fd, p, took) else []
    case _ => []
  }

  /** A descriptor beyond the table is refused. */
  function Joiner(b: Books, d: Deed): Option<nat> {
    if d.Welcome? && d.answer.Accepted? && d.answer.fd < |b.peers.now| then Some(d.answer.fd) else None
  }

  function Apply(b: Books, d: Deed): Books {
    if d.Welcome? then
      match Joiner(b, d)
      case Some(fd) => Books(Called(b.peers, Connect(fd)), b.owner[fd := b.connections], b.connections + 1)
      case None => b
    else if d.on < |b.peers.now| then
      var p := b.peers.now[d.on];
      var o := Result(p, d);
      Books(Peers(b.peers.start, b.peers.trace + Events(p, d), b.peers.now[d.on := o.peer]),
            if o.status == STATUS_NORW then b.owner - {d.on} else b.owner, b.connections)
    else b
  }

  /** The table is what its history makes it, every holder is a peer that connected, and
      connections still to come will get new numbers. */
  ghost predicate Sound(b: Books) {
    && Genuine(b.peers)
    && forall fd :: fd in b.owner ==> Live(b.peers, fd) && b.owner[fd] < b.connections
  }

  /** The deed is done for the connection that holds the descriptor, which wants it, and the
      kernel answers as it may. */
  ghost predicate Proper(b: Books, d: Deed) {
    match d
    case Read(fd, heldBy, got) =>
      Held(b, fd, heldBy) && Interest(b.peers.now[fd]) == STATUS_R && MayReceive(got, Room(b.peers.now[fd]))
    case Write(fd, heldBy, took) =>
      Held(b, fd, heldBy) && Interest(b.peers.now[fd]) == STATUS_W && MayWrite(took, |Pending(b.peers.now[fd])|)
    case Drop(fd, heldBy) => Held(b, fd, heldBy)
    case Welcome(on, answer) => on !in b.owner && MayAccept(answer, b.owner.Keys + {on})
  }

  ghost predicate Held(b: Books, fd: nat, heldBy: nat) {
    fd < |b.peers.now| && fd in b.owner && b.owner[fd] == heldBy
  }

  /** A handler's verdict closes the peer for a reason of the peer's own or asks for what the
      peer now needs; so neither the read-and-write verdict nor a close that blames this
      program can occur. */
  lemma VerdictIsSensible(b: Books, d: Deed)
    requires Sound(b) && Proper(b, d) && (d.Read? || d.Write?)
    ensures var o := Result(b.peers.now[d.on], d);
            Sensible(o) && o.status != STATUS_RW && (o.status == STATUS_NORW ==> !Internal(o.peer.reason))
  {
    if d.Read? {
      DrainedIsParsing(b.peers, d.on);
      RecvVerdict(b.peers.now[d.on], d.got);
    } else {
      SendVerdict(b.peers.now[d.on], d.took);
    }
  }

  /** `es` is the one call on `fd` that turned `p` into `p'`, or no call and no change. */
  ghost predicate Explained(p: PeerValue, p': PeerValue, es: seq<Event>, fd: nat) {
    if es == [] then p' == p
    else
      && es == [es[0]] && es[0].fd == fd && !es[0].Connect? && Effect(p, es[0]) == p'
      && (es[0].Feed? ==> |es[0].data| <= Room(p)) && (es[0].Send? ==> es[0].bytes <= Pending(p))
  }

  lemma RecvIsExplained(p: PeerValue, fd: nat, r: RecvResult)
    requires MayReceive(r, Room(p))
    ensures Explained(p, ReadyRecv(p, r).peer, RecvEvents(fd, p, r), fd)
  {
  }

  lemma SendIsExplained(p: PeerValue, fd: nat, r: SendResult)
    requires MayWrite(r, |Pending(p)|)
    ensures Explained(p, ReadySend(p, r).peer, SendEvents(fd, p, r), fd)
  {
  }

  /** The history a deed leaves is that of the call it made, if it made one. */
  lemma EventsExplain(b: Books, d: Deed)
    requires Sound(b) && Proper(b, d) && !d.Welcome?
    ensures var p := b.peers.now[d.on]; Explained(p, Result(p, d).peer, Events(p, d), d.on)
  {
    var p := b.peers.now[d.on];
    match d {
      case Read(fd, _, got) =>
        DrainedIsParsing(b.peers, fd);
        RecvIsExplained(p, fd, got);
      case Write(fd, _, took) =>
        SendIsExplained(p, fd, took);
      case Drop(_, _) =>
    }
  }

  lemma SilentCall(b: Books, d: Deed)
    requires !d.Welcome? && d.on < |b.peers.now|
    requires Events(b.peers.now[d.on], d) == [] && Result(b.peers.now[d.on], d).peer == b.peers.now[d.on]
    ensures Apply(b, d).peers == b.peers
  {
    assert b.peers.trace + [] == b.peers.trace;
    assert b.peers.now[d.on := b.peers.now[d.on]] == b.peers.now;
  }

  lemma LoggedCall(b: Books, d: Deed, e: Event)
    requires !d.Welcome? && d.on < |b.peers.now| && e.fd == d.on
    requires Events(b.peers.now[d.on], d) == [e] && Effect(b.peers.now[d.on], e) == Result(b.peers.now[d.on], d).peer
    ensures Apply(b, d).peers == Called(b.peers, e)
  {
  }

  lemma CallKeepsGenuine(b: Books, d: Deed)
    requires Sound(b) && Proper(b, d) && !d.Welcome?
    ensures Genuine(Apply(b, d).peers) && forall fd :: Live(b.peers, fd) ==> Live(Apply(b, d).peers, fd)
  {
    EventsExplain(b, d);
    var es := Events(b.peers.now[d.on], d);
    if es == [] {
      SilentCall(b, d);
    } else {
      LoggedCall(b, d, es[0]);
      CalledIsGenuine(b.peers, es[0]);
    }
  }

  lemma DeedKeepsSound(b: Books, d: Deed)
    requires Sound(b) && Proper(b, d)
    ensures Sound(Apply(b, d)) && |Apply(b, d).peers.now| == |b.peers.now|
  {
    if !d.Welcome? {
      CallKeepsGenuine(b, d);
    } else if Joiner(b, d).Some? {
      CalledIsGenuine(b.peers, Connect(d.answer.fd));
    }
  }

  /** Everyone but `fd` holds what they held, with the parser entry they had. */
  ghost predicate OthersKept(b: Books, b': Books, fd: nat) {
    && |b'.peers.now| == |b.peers.now|
    && (forall x :: x in b'.owner && x != fd ==> x in b.owner)
    && forall x :: x in b.owner && x != fd ==>
         x in b'.owner && b'.owner[x] == b.owner[x] && x < |b.peers.now| && b'.peers.now[x] == b.peers.now[x]
  }

  /** `fd` is closed, or to be watched for `status`, which is what its holder needs. */
  ghost predicate Settled(b: Books, fd: nat, status: Status) {
    && (fd in b.owner <==> status != STATUS_NORW)
    && (fd in b.owner ==> fd < |b.peers.now| && status == Interest(b.peers.now[fd]))
  }

  /** A deed changed things at `fd` alone, and left `status` to be applied there. */
  ghost predicate ChangedAt(b: Books, b': Books, fd: nat, status: Status) {
    OthersKept(b, b', fd) && Settled(b', fd, status)
  }

  lemma HoldersInTable(b: Books)
    requires Sound(b)
    ensures forall fd :: fd in b.owner ==> fd < |b.peers.now|
  {
    forall fd | fd in b.owner
      ensures fd < |b.peers.now|
    {
      assert Live(b.peers, fd);
    }
  }

  lemma CallTouchesOne(b: Books, d: Deed, o: Outcome)
    requires !d.Welcome? && d.on in b.owner && forall fd :: fd in b.owner ==> fd < |b.peers.now|
    requires o == Result(b.peers.now[d.on], d) && (o.status == STATUS_NORW || o.status == Interest(o.peer))
    ensures ChangedAt(b, Apply(b, d), d.on, o.status)
  {
  }

  lemma CallIsLocal(b: Books, d: Deed)
    requires Sound(b) && Proper(b, d) && !d.Welcome?
    ensures Sound(Apply(b, d)) && ChangedAt(b, Apply(b, d), d.on, Result(b.peers.now[d.on], d).status)
  {
    DeedKeepsSound(b, d);
    var o := Result(b.peers.now[d.on], d);
    assert o.status == STATUS_NORW || o.status == Interest(o.peer) by {
      if !d.Drop? {
        VerdictIsSensible(b, d);
      }
    }
    HoldersInTable(b);
    CallTouchesOne(b, d, o);
  }

  /** A newcomer disturbs nobody and has its acknowledgement to send. */
  lemma WelcomeIsLocal(b: Books, d: Deed)
    requires Sound(b) && Proper(b, d) && Joiner(b, d).Some?
    ensures Sound(Apply(b, d)) && ChangedAt(b, Apply(b, d), d.answer.fd, Connected().status)
    ensures d.answer.fd !in b.owner && d.answer.fd != d.on
  {
    DeedKeepsSound(b, d);
    HoldersInTable(b);
  }

  // -------------------------------------------------------------- many deeds

  ghost function Replay(b: Books, deeds: seq<Deed>): Books {
    if deeds == [] then b else Apply(Replay(b, deeds[..|deeds| - 1]), deeds[|deeds| - 1])
  }

  /** Every deed is proper at the moment it is done. */
  ghost predicate AllProper(b: Books, deeds: seq<Deed>) {
    deeds == [] ||
    var front := deeds[..|deeds| - 1];
    AllProper(b, front) && Proper(Replay(b, front), deeds[|deeds| - 1])
  }

  lemma OneMore(b: Books, deeds: seq<Deed>, d: Deed)
    ensures Replay(b, deeds + [d]) == Apply(Replay(b, deeds), d)
    ensures AllProper(b, deeds + [d]) <==> AllProper(b, deeds) && Proper(Replay(b, deeds), d)
  {
    assert (deeds + [d])[..|deeds|] == deeds;
  }

  lemma {:induction false} ReplayIsSound(b: Books, deeds: seq<Deed>)
    requires Sound(b) && AllProper(b, deeds)
    ensures Sound(Replay(b, deeds)) && |Replay(b, deeds).peers.now| == |b.peers.now|
  {
    if deeds != [] {
      var front := deeds[..|deeds| - 1];
      ReplayIsSound(b, front);
      DeedKeepsSound(Replay(b, front), deeds[|deeds| - 1]);
    }
  }

  /** What one deed does to the streams of a connection that holds its descriptor before and after. */
  lemma StreamsGrowByDeed(b: Books, d: Deed, fd: nat)
    requires Sound(b) && Proper(b, d) && Joiner(b, d) != Some(fd)
    ensures Heard(b.peers.trace, fd) <= Heard(Apply(b, d).peers.trace, fd)
    ensures Told(b.peers.trace, fd) <= Told(Apply(b, d).peers.trace, fd)
    ensures d.on != fd ==> Heard(Apply(b, d).peers.trace, fd) == Heard(b.peers.trace, fd)
    ensures d.on != fd ==> Told(Apply(b, d).peers.trace, fd) == Told(b.peers.trace, fd)
  {
    var old_trace, new_trace := b.peers.trace, Apply(b, d).peers.trace;
    if !d.Welcome? {
      EventsExplain(b, d);
    }
    if |new_trace| > |old_trace| {
      assert new_trace[..|new_trace| - 1] == old_trace;
    } else {
      assert new_trace == old_trace;
    }
  }

  /** Connections that were there before: a descriptor whose holder arrived before the deeds
      began had that holder all along, whose streams have only grown. */
  lemma {:induction false} HolderStayed(b: Books, deeds: seq<Deed>, fd: nat)
    requires Sound(b) && AllProper(b, deeds)
    requires fd in Replay(b, deeds).owner && Replay(b, deeds).owner[fd] < b.connections
    ensures b.connections <= Replay(b, deeds).connections
    ensures fd in b.owner && b.owner[fd] == Replay(b, deeds).owner[fd]
    ensures Heard(b.peers.trace, fd) <= Heard(Replay(b, deeds).peers.trace, fd)
    ensures Told(b.peers.trace, fd) <= Told(Replay(b, deeds).peers.trace, fd)
  {
    if deeds != [] {
      var front, d := deeds[..|deeds| - 1], deeds[|deeds| - 1];
      var mid := Replay(b, front);
      ReplayIsSound(b, front);
      ConnectionsGrow(b, front);
      HolderStayed(b, front, fd);
      StreamsGrowByDeed(mid, d, fd);
    }
  }

  lemma {:induction false} ConnectionsGrow(b: Books, deeds: seq<Deed>)
    ensures b.connections <= Replay(b, deeds).connections
  {
    if deeds != [] {
      ConnectionsGrow(b, deeds[..|deeds| - 1]);
    }
  }

  ghost function DealtWith(deeds: seq<Deed>): set<nat> {
    set i | 0 <= i < |deeds| :: deeds[i].on
  }

  lemma DealtWithOneMore(deeds: seq<Deed>, d: Deed)
    ensures DealtWith(deeds + [d]) == DealtWith(deeds) + {d.on}
  {
    var more := deeds + [d];
    assert forall i :: 0 <= i < |deeds| ==> more[i] == deeds[i];
    assert more[|deeds|] == d;
  }

  lemma UntouchedByDeed(b: Books, d: Deed, fd: nat)
    requires Sound(b) && Proper(b, d) && fd in b.owner && fd != d.on
    ensures var b' := Apply(b, d);
            && fd in b'.owner && b'.owner[fd] == b.owner[fd] && fd < |b'.peers.now| == |b.peers.now|
            && b'.peers.now[fd] == b.peers.now[fd]
            && Heard(b'.peers.trace, fd) == Heard(b.peers.trace, fd)
            && Told(b'.peers.trace, fd) == Told(b.peers.trace, fd)
  {
    HoldersInTable(b);
    StreamsGrowByDeed(b, d, fd);
  }

  /** A connection no deed was done on is exactly as it was: its holder, its parser entry and
      its streams. */
  lemma {:induction false} UntouchedIsKept(b: Books, deeds: seq<Deed>, fd: nat)
    requires Sound(b) && AllProper(b, deeds) && fd in b.owner && fd !in DealtWith(deeds)
    ensures var b' := Replay(b, deeds);
            && fd in b'.owner && b'.owner[fd] == b.owner[fd] && fd < |b'.peers.now| == |b.peers.now|
            && b'.peers.now[fd] == b.peers.now[fd]
            && Heard(b'.peers.trace, fd) == Heard(b.peers.trace, fd)
            && Told(b'.peers.trace, fd) == Told(b.peers.trace, fd)
  {
    if deeds != [] {
      var front, d := deeds[..|deeds| - 1], deeds[|deeds| - 1];
      assert deeds == front + [d];
      DealtWithOneMore(front, d);
      ReplayIsSound(b, front);
      UntouchedIsKept(b, front, fd);
      UntouchedByDeed(Replay(b, front), d, fd);
    }
  }

  /** The past is never rewritten. */
  lemma {:induction false} HistoryExtends(b: Books, deeds: seq<Deed>)
    ensures Replay(b, deeds).peers.start == b.peers.start && b.peers.trace <= Replay(b, deeds).peers.trace
  {
    if deeds != [] {
      HistoryExtends(b, deeds[..|deeds| - 1]);
    }
  }

  /** Nobody holds a descriptor who neither held it before nor was accepted since. */
  lemma {:induction false} NewcomersWereAccepted(b: Books, deeds: seq<Deed>, fd: nat)
    requires Sound(b) && AllProper(b, deeds) && fd in Replay(b, deeds).owner
    ensures (fd in b.owner && b.owner[fd] == Replay(b, deeds).owner[fd]) ||
            exists i :: 0 <= i < |deeds| && deeds[i].Welcome? && deeds[i].answer == Accepted(fd)
  {
    if deeds != [] {
      var front, d := deeds[..|deeds| - 1], deeds[|deeds| - 1];
      if Joiner(Replay(b, front), d) == Some(fd) {
        assert deeds[|deeds| - 1].Welcome? && deeds[|deeds| - 1].answer == Accepted(fd);
      } else {
        NewcomersWereAccepted(b, front, fd);
        if i :| 0 <= i < |front| && front[i].Welcome? && front[i].answer == Accepted(fd) {
          assert deeds[i].Welcome? && deeds[i].answer == Accepted(fd);
        }
      }
    }
  }

  /** Every call since `first` was for the connection that held the descriptor then. */
  ghost predicate NoStaleDeeds(first: Books, deeds: seq<Deed>) {
    forall i :: 0 <= i < |deeds| && !deeds[i].Welcome? ==>
      deeds[i].on in first.owner && deeds[i].heldBy == first.owner[deeds[i].on]
  }

  /** `b` is `first` after `deeds`, none of them meant for anyone else. */
  ghost predicate Reaches(first: Books, deeds: seq<Deed>, b: Books) {
    AllProper(first, deeds) && NoStaleDeeds(first, deeds) && b == Replay(first, deeds)
  }

  /** One more deed, on a descriptor that still has the holder it had at first. */
  lemma ReachesOneMore(first: Books, deeds: seq<Deed>, b: Books, d: Deed)
    requires Reaches(first, deeds, b) && Proper(b, d)
    requires d.Welcome? || (d.on in first.owner && d.on in b.owner && b.owner[d.on] == first.owner[d.on])
    ensures Reaches(first, deeds + [d], Apply(b, d))
  {
    OneMore(first, deeds, d);
  }

  // ---------------------------------------------------------------- the deeds

  /** The table as allocated, with nobody connected. */
  function NoBooks(maxFds: nat): Books {
    Books(NewPeers(maxFds), map[], 0)
  }

  /** The readiness handler for input, on a peer watched for reading. */
  method DoRead(b: Books, fd: nat) returns (b': Books, status: Status, d: Deed)
    requires Sound(b) && fd in b.owner && Interest(b.peers.now[fd]) == STATUS_R
    ensures d.Read? && d.on == fd && Proper(b, d) && b' == Apply(b, d)
    ensures Sound(b') && ChangedAt(b, b', fd, status)
    ensures status == Result(b.peers.now[fd], d).status
  {
    var r := Recv(Room(b.peers.now[fd]));
    d := Read(fd, b.owner[fd], r);
    CallIsLocal(b, d);
    b', status := Apply(b, d), ReadyRecv(b.peers.now[fd], r).status;
  }

  /** The readiness handler for output, on a peer watched for writing. */
  method DoWrite(b: Books, fd: nat) returns (b': Books, status: Status, d: Deed)
    requires Sound(b) && fd in b.owner && Interest(b.peers.now[fd]) == STATUS_W
    ensures d.Write? && d.on == fd && Proper(b, d) && b' == Apply(b, d)
    ensures Sound(b') && ChangedAt(b, b', fd, status)
    ensures status == Result(b.peers.now[fd], d).status
  {
    var r := Kernel.Send(|Pending(b.peers.now[fd])|);
    d := Write(fd, b.owner[fd], r);
    CallIsLocal(b, d);
    b', status := Apply(b, d), ReadySend(b.peers.now[fd], r).status;
  }

  // ------------------------------------------------------------ runs of an event loop

  ghost predicate GoodAt<T(!new)>(run: seq<T>, k: nat, good: T -> bool) {
    k < |run| ==> good(run[k])
  }

  ghost predicate StepAt<T(!new)>(run: seq<T>, k: nat, step: (T, T) -> bool) {
    0 < k < |run| ==> step(run[k - 1], run[k])
  }

  /** States that are all good, each reached from the one before by a step. */
  ghost predicate Chain<T(!new)>(run: seq<T>, good: T -> bool, step: (T, T) -> bool) {
    (forall k :: GoodAt(run, k, good)) && forall k :: StepAt(run, k, step)
  }

  lemma ChainGrows<T(!new)>(run: seq<T>, x: T, good: T -> bool, step: (T, T) -> bool)
    requires Chain(run, good, step) && good(x) && (run != [] ==> step(run[|run| - 1], x))
    ensures Chain(run + [x], good, step)
  {
    forall k
      ensures GoodAt(run + [x], k, good)
    {
      assert GoodAt(run, k, good);
    }
    forall k
      ensures StepAt(run + [x], k, step)
    {
      assert StepAt(run, k, step);
    }
  }

  /** The books of successive states: each is the one before with proper deeds replayed. */
  ghost predicate Continued(b: Books, b': Books) {
    exists deeds :: Reaches(b, deeds, b')
  }

  /** From one state to the next the history is extended, never rewritten, and numbers are never
      given out again. */
  lemma ContinuedExtends(b: Books, b': Books)
    requires Continued(b, b')
    ensures b'.peers.start == b.peers.start && b.peers.trace <= b'.peers.trace && b.connections <= b'.connections
  {
    var deeds :| Reaches(b, deeds, b');
    HistoryExtends(b, deeds);
    ConnectionsGrow(b, deeds);
  }

  ghost predicate Kept(books: seq<Books>) {
    Chain(books, Sound, Continued)
  }

  /** One connection holds `fd` in both, and its streams have only grown from one to the other. */
  ghost predicate Grown(b: Books, b': Books, fd: nat) {
    && fd in b.owner && fd in b'.owner && b.owner[fd] == b'.owner[fd]
    && Heard(b.peers.trace, fd) <= Heard(b'.peers.trace, fd)
    && Told(b.peers.trace, fd) <= Told(b'.peers.trace, fd)
  }

  lemma GrownSelf(b: Books, fd: nat)
    requires fd in b.owner
    ensures Grown(b, b, fd)
  {
  }

  lemma GrownOn(a: Books, b: Books, c: Books, fd: nat)
    requires Grown(a, b, fd) && Grown(b, c, fd)
    ensures Grown(a, c, fd)
  {
    FrontOfFront(Heard(a.peers.trace, fd), Heard(b.peers.trace, fd), Heard(c.peers.trace, fd));
    FrontOfFront(Told(a.peers.trace, fd), Told(b.peers.trace, fd), Told(c.peers.trace, fd));
  }

  lemma GrownOnce(b: Books, b': Books, fd: nat)
    requires Sound(b) && Continued(b, b') && fd in b'.owner && b'.owner[fd] < b.connections
    ensures Grown(b, b', fd)
  {
    var deeds :| Reaches(b, deeds, b');
    HolderStayed(b, deeds, fd);
  }

  lemma GrownLast(books: seq<Books>, i: nat, j: nat, fd: nat)
    requires Kept(books) && i < j < |books|
    requires fd in books[i].owner && fd in books[j].owner && books[i].owner[fd] == books[j].owner[fd]
    ensures Grown(books[j - 1], books[j], fd)
  {
    NumbersGrow(books, i, j - 1);
    var first, prev, last := books[i], books[j - 1], books[j];
    assert StepAt(books, j, Continued);
    assert GoodAt(books, i, Sound) && GoodAt(books, j - 1, Sound);
    GrownOnce(prev, last, fd);
  }

  /** Along a run, a connection that keeps its descriptor keeps its streams, which only grow. */
  lemma {:induction false} StreamsGrow(books: seq<Books>, i: nat, j: nat, fd: nat)
    requires Kept(books) && i <= j < |books|
    requires fd in books[i].owner && fd in books[j].owner && books[i].owner[fd] == books[j].owner[fd]
    ensures Grown(books[i], books[j], fd)
    decreases j - i
  {
    if i < j {
      GrownLast(books, i, j, fd);
      var prev := books[j - 1];
      assert fd in prev.owner && prev.owner[fd] == books[i].owner[fd];
      StreamsGrow(books, i, j - 1, fd);
      GrownOn(books[i], prev, books[j], fd);
    } else {
      GrownSelf(books[i], fd);
    }
  }

  /** At any time what a connection was sent is a front of the answer to what it sent, and the
      rest of that answer is pending. */
  lemma HolderIsAnswered(b: Books, fd: nat)
    requires Sound(b) && fd in b.owner
    ensures Told(b.peers.trace, fd) + Pending(b.peers.now[fd]) == Answer(Heard(b.peers.trace, fd))
    ensures Told(b.peers.trace, fd) <= Answer(Heard(b.peers.trace, fd))
    ensures Room(b.peers.now[fd]) == if Pending(b.peers.now[fd]) == [] then SENDBUF_SIZE else 0
  {
    StreamRefinement(b.peers.start, b.peers.trace, fd);
    RoomAllOrNothing(b.peers.now[fd], Heard(b.peers.trace, fd), Told(b.peers.trace, fd));
  }

  lemma {:induction false} NumbersGrow(books: seq<Books>, i: nat, j: nat)
    requires Kept(books) && i <= j < |books|
    ensures books[i].connections <= books[j].connections
    decreases j - i
  {
    if i < j {
      NumbersGrow(books, i, j - 1);
      assert StepAt(books, j, Continued);
      var deeds :| Reaches(books[j - 1], deeds, books[j]);
      ConnectionsGrow(books[j - 1], deeds);
    }
  }
}
