/** The select loop.

  The kernel may report any part of the watched sets, answer every call as module
  Kernel allows, and reuse a descriptor as soon as it is closed, also in the middle
  of a pass.
*/
module SelectServer {
  import opened Framing
  import opened Kernel
  import opened PeerState
  import opened PeerRuns
  import opened EventLoop

  const MAXFDS: nat := 1000
  const FD_SETSIZE: nat := 1024

  datatype Loop = Loop(listener: nat, books: Books, readMaster: set<nat>, writeMaster: set<nat>, fdsetMax: nat)

  /** Open peers are watched for exactly what their parser state calls for, and
      nothing else but the listener is watched. */
  ghost predicate Watching(l: Loop) {
    ListenerWatched(l) && NothingElseWatched(l) && PeersWatched(l)
  }

  ghost predicate ListenerWatched(l: Loop) {
    && |l.books.peers.now| == MAXFDS && l.listener !in l.books.owner
    && l.listener in l.readMaster && l.listener !in l.writeMaster
  }

  ghost predicate NothingElseWatched(l: Loop) {
    && (forall fd :: fd in l.readMaster ==> fd == l.listener || fd in l.books.owner)
    && (forall fd :: fd in l.writeMaster ==> fd in l.books.owner)
  }

  ghost predicate PeersWatched(l: Loop) {
    forall fd :: fd in l.books.owner ==> PeerWatched(l, fd)
  }

  ghost predicate PeerWatched(l: Loop, fd: nat) {
    fd < |l.books.peers.now| && Agrees(l, fd, Interest(l.books.peers.now[fd]))
  }

  ghost predicate Agrees(l: Loop, fd: nat, status: Status) {
    (fd in l.readMaster <==> status.wantRead) && (fd in l.writeMaster <==> status.wantWrite)
  }

  /** The sets stay inside what an fd_set can hold and below the loop's upper bound. */
  ghost predicate Bounded(l: Loop) {
    && l.listener <= l.fdsetMax < FD_SETSIZE
    && forall fd :: fd in l.books.owner ==> fd <= l.fdsetMax
  }

  ghost predicate Good(l: Loop) {
    Sound(l.books) && Watching(l) && Bounded(l)
  }

  // -------------------------------------------------------------- applying verdicts

  /** The loop after a call on `fd` left these books and this verdict. */
  function Applied(l: Loop, fd: nat, books: Books, status: Status): Loop {
    l.(books := books,
       readMaster := if status.wantRead then l.readMaster + {fd} else l.readMaster - {fd},
       writeMaster := if status.wantWrite then l.writeMaster + {fd} else l.writeMaster - {fd})
  }

  /** Everyone but `fd` still holds and wants what they did. */
  ghost predicate Spares(l: Loop, l': Loop, fd: nat) {
    && l'.listener == l.listener && l.fdsetMax <= l'.fdsetMax
    && forall x :: x in l.books.owner && x != fd ==>
         && x in l'.books.owner && l'.books.owner[x] == l.books.owner[x]
         && (x in l'.readMaster <==> x in l.readMaster) && (x in l'.writeMaster <==> x in l.writeMaster)
  }

  /** Deed `d` was done, and it was proper. */
  ghost predicate Did(l: Loop, l': Loop, d: Deed) {
    Good(l') && Proper(l.books, d) && l'.books == Apply(l.books, d) && Spares(l, l', d.on)
  }

  lemma ListenerStaysWatched(l: Loop, fd: nat, books: Books, status: Status)
    requires ListenerWatched(l) && fd != l.listener && OthersKept(l.books, books, fd)
    ensures ListenerWatched(Applied(l, fd, books, status))
  {
  }

  lemma NothingElseIsWatched(l: Loop, fd: nat, books: Books, status: Status)
    requires NothingElseWatched(l) && ChangedAt(l.books, books, fd, status)
    ensures NothingElseWatched(Applied(l, fd, books, status))
  {
  }

  lemma PeerStaysWatched(l: Loop, fd: nat, books: Books, status: Status, x: nat)
    requires PeersWatched(l) && ChangedAt(l.books, books, fd, status) && x in books.owner
    ensures PeerWatched(Applied(l, fd, books, status), x)
  {
    assert x != fd ==> PeerWatched(l, x);
  }

  /** Applying a verdict keeps the masters in agreement with the parser. */
  lemma AppliedStaysWatching(l: Loop, fd: nat, books: Books, status: Status)
    requires Watching(l) && fd != l.listener && ChangedAt(l.books, books, fd, status)
    ensures Watching(Applied(l, fd, books, status))
  {
    ListenerStaysWatched(l, fd, books, status);
    NothingElseIsWatched(l, fd, books, status);
    forall x | x in books.owner
      ensures PeerWatched(Applied(l, fd, books, status), x)
    {
      PeerStaysWatched(l, fd, books, status, x);
    }
  }

  lemma AppliedSpares(l: Loop, fd: nat, books: Books, status: Status)
    requires Bounded(l) && fd <= l.fdsetMax && OthersKept(l.books, books, fd)
    ensures Spares(l, Applied(l, fd, books, status), fd) && Bounded(Applied(l, fd, books, status))
  {
  }

  method HandleRead(before: Loop, fd: nat) returns (l: Loop, closed: bool, d: Deed)
    requires Good(before) && fd in before.books.owner && fd in before.readMaster
    ensures Did(before, l, d) && d.Read? && d.on == fd
    ensures closed <==> fd !in l.books.owner
  {
    assert PeerWatched(before, fd);
    var books, status;
    books, status, d := DoRead(before.books, fd);
    AppliedStaysWatching(before, fd, books, status);
    AppliedSpares(before, fd, books, status);
    l := Applied(before, fd, books, status);
    closed := !status.wantRead && !status.wantWrite;
  }

  method HandleWrite(before: Loop, fd: nat) returns (l: Loop, d: Deed)
    requires Good(before) && fd in before.books.owner && fd in before.writeMaster
    ensures Did(before, l, d) && d.Write? && d.on == fd
  {
    assert PeerWatched(before, fd);
    var books, status;
    books, status, d := DoWrite(before.books, fd);
    AppliedStaysWatching(before, fd, books, status);
    AppliedSpares(before, fd, books, status);
    l := Applied(before, fd, books, status);
  }

  /** A new peer on `fd` has its acknowledgement to send. */
  function Admitted(l: Loop, fd: nat, books: Books): Loop {
    Applied(l.(fdsetMax := if fd > l.fdsetMax then fd else l.fdsetMax), fd, books, Connected().status)
  }

  lemma RaisedStaysGood(l: Loop, max: nat)
    requires Good(l) && l.fdsetMax <= max < FD_SETSIZE
    ensures Good(l.(fdsetMax := max))
  {
    forall fd | fd in l.books.owner
      ensures PeerWatched(l.(fdsetMax := max), fd)
    {
      assert PeerWatched(l, fd);
    }
  }

  lemma AdmittedStaysGood(l: Loop, d: Deed)
    requires Good(l) && Proper(l.books, d) && d.Welcome? && d.on == l.listener && Joiner(l.books, d).Some?
    ensures Did(l, Admitted(l, d.answer.fd, Apply(l.books, d)), d)
  {
    var fd, books := d.answer.fd, Apply(l.books, d);
    WelcomeIsLocal(l.books, d);
    var max := if fd > l.fdsetMax then fd else l.fdsetMax;
    RaisedStaysGood(l, max);
    AppliedStaysWatching(l.(fdsetMax := max), fd, books, Connected().status);
    AppliedSpares(l.(fdsetMax := max), fd, books, Connected().status);
    AdmittedSpares(l, max, Applied(l.(fdsetMax := max), fd, books, Connected().status), fd, d.on);
  }

  lemma AdmittedSpares(l: Loop, max: nat, l': Loop, fd: nat, on: nat)
    requires l.fdsetMax <= max && Spares(l.(fdsetMax := max), l', fd) && fd !in l.books.owner
    ensures Spares(l, l', on)
  {
  }

  /** accept: a descriptor in range joins with a fresh parser entry; nothing else changes anything. */
  method HandleAccept(before: Loop) returns (l: Loop, alive: bool, d: Deed)
    requires Good(before)
    ensures Did(before, l, d) && d.Welcome? && d.on == before.listener
    ensures alive <==> !d.answer.AcceptFailed?
  {
    var res := Accept(before.books.owner.Keys + {before.listener});
    d := Welcome(before.listener, res);
    l, alive := before, !res.AcceptFailed?;
    if res.Accepted? && res.fd < FD_SETSIZE && res.fd < |before.books.peers.now| {
      AdmittedStaysGood(before, d);
      l := Admitted(before, res.fd, Apply(before.books, d));
    }
  }

  // ------------------------------------------------------------------- one pass

  function From(s: set<nat>, fd: nat): set<nat> {
    set x | x in s && x >= fd
  }

  function Seen(s: set<nat>, fd: nat): set<nat> {
    set x | x in s && x < fd
  }

  lemma SeenNext(s: set<nat>, fd: nat)
    ensures Seen(s, fd + 1) == Seen(s, fd) + if fd in s then {fd} else {}
  {
  }

  function Due(readfds: set<nat>, writefds: set<nat>, fd: nat): nat {
    |From(readfds, fd)| + |From(writefds, fd)|
  }

  lemma FromNext(s: set<nat>, fd: nat)
    ensures From(s, fd + 1) == From(s, fd) - {fd}
    ensures |From(s, fd + 1)| == |From(s, fd)| - if fd in s then 1 else 0
  {
    assert From(s, fd + 1) == From(s, fd) - {fd};
    assert fd in s <==> fd in From(s, fd);
  }

  /** The deed answers what was reported of its descriptor. */
  ghost predicate Answers(d: Deed, listener: nat, readfds: set<nat>, writefds: set<nat>) {
    match d
    case Read(fd, _, _) => fd in readfds && fd != listener
    case Write(fd, _, _) => fd in writefds
    case Welcome(on, _) => on == listener && on in readfds
    case Drop(_, _) => false
  }

  /** A descriptor reported but not reached yet still belongs to the peer it was
      reported for, which still wants what was reported. */
  ghost predicate StillDue(l: Loop, first: Loop, readfds: set<nat>, writefds: set<nat>, fd: nat) {
    && (forall x :: x in readfds && x >= fd && x != l.listener ==> SameHolder(l, first, x) && x in l.readMaster)
    && (forall x :: x in writefds && x >= fd ==> SameHolder(l, first, x) && x in l.writeMaster)
  }

  ghost predicate SameHolder(l: Loop, first: Loop, fd: nat) {
    fd in l.books.owner && fd in first.books.owner && l.books.owner[fd] == first.books.owner[fd]
  }

  /** The scan has dealt with everything reported below `fd`, once each, and nothing else. */
  ghost predicate Scanned(deeds: seq<Deed>, listener: nat, readfds: set<nat>, writefds: set<nat>, fd: nat) {
    && DealtWith(deeds) == Seen(readfds + writefds, fd)
    && |deeds| + Due(readfds, writefds, fd) == Due(readfds, writefds, 0)
    && forall i :: 0 <= i < |deeds| ==> Answers(deeds[i], listener, readfds, writefds)
  }

  /** What select may report. */
  ghost predicate Reported(first: Loop, readfds: set<nat>, writefds: set<nat>) {
    && readfds <= first.readMaster && writefds <= first.writeMaster
    && first.listener !in writefds && readfds * writefds == {}
  }

  ghost predicate Midway(
    l: Loop, first: Loop, deeds: seq<Deed>, readfds: set<nat>, writefds: set<nat>, fd: nat)
  {
    && l.listener == first.listener && first.fdsetMax <= l.fdsetMax && Reaches(first.books, deeds, l.books)
    && StillDue(l, first, readfds, writefds, fd) && Scanned(deeds, first.listener, readfds, writefds, fd)
  }

  lemma DueAfterDeed(
    l: Loop, l': Loop, first: Loop, readfds: set<nat>, writefds: set<nat>, fd: nat)
    requires StillDue(l, first, readfds, writefds, fd) && Spares(l, l', fd)
    ensures StillDue(l', first, readfds, writefds, fd + 1)
  {
  }

  lemma ScannedAfterDeed(
    deeds: seq<Deed>, d: Deed, listener: nat, readfds: set<nat>, writefds: set<nat>, fd: nat)
    requires readfds * writefds == {} && Scanned(deeds, listener, readfds, writefds, fd)
    requires Answers(d, listener, readfds, writefds) && d.on == fd
    ensures Scanned(deeds + [d], listener, readfds, writefds, fd + 1)
  {
    FromNext(readfds, fd);
    FromNext(writefds, fd);
    SeenNext(readfds + writefds, fd);
    DealtWithOneMore(deeds, d);
    assert !(fd in readfds && fd in writefds) by {
      assert fd !in readfds * writefds;
    }
  }

  lemma MidwayDeed(
    l: Loop, l': Loop, first: Loop, deeds: seq<Deed>, d: Deed, readfds: set<nat>, writefds: set<nat>, fd: nat)
    requires Reported(first, readfds, writefds) && Midway(l, first, deeds, readfds, writefds, fd)
    requires Did(l, l', d) && d.on == fd && Answers(d, first.listener, readfds, writefds)
    ensures Midway(l', first, deeds + [d], readfds, writefds, fd + 1)
  {
    assert d.Welcome? || SameHolder(l, first, fd);
    ReachesOneMore(first.books, deeds, l.books, d);
    DueAfterDeed(l, l', first, readfds, writefds, fd);
    ScannedAfterDeed(deeds, d, first.listener, readfds, writefds, fd);
  }

  lemma MidwaySkip(
    l: Loop, first: Loop, deeds: seq<Deed>, readfds: set<nat>, writefds: set<nat>, fd: nat)
    requires Midway(l, first, deeds, readfds, writefds, fd) && fd !in readfds + writefds
    ensures Midway(l, first, deeds, readfds, writefds, fd + 1)
  {
    FromNext(readfds, fd);
    FromNext(writefds, fd);
    SeenNext(readfds + writefds, fd);
  }

  /** The read side of a turn: a new peer on the listener, input on any other descriptor. */
  method VisitRead(
    ghost first: Loop, ghost deeds: seq<Deed>, before: Loop, fd: nat, readfds: set<nat>, ghost writefds: set<nat>)
    returns (l: Loop, closed: bool, alive: bool, d: Deed)
    requires Good(before) && fd in readfds
    requires Reported(first, readfds, writefds) && Midway(before, first, deeds, readfds, writefds, fd)
    ensures Good(l) && Midway(l, first, deeds + [d], readfds, writefds, fd + 1)
  {
    closed, alive := false, true;
    if fd == before.listener {
      l, alive, d := HandleAccept(before);
    } else {
      assert SameHolder(before, first, fd);
      l, closed, d := HandleRead(before, fd);
    }
    MidwayDeed(before, l, first, deeds, d, readfds, writefds, fd);
  }

  method VisitWrite(
    ghost first: Loop, ghost deeds: seq<Deed>, before: Loop, fd: nat, ghost readfds: set<nat>, writefds: set<nat>)
    returns (l: Loop, d: Deed)
    requires Good(before) && fd in writefds
    requires Reported(first, readfds, writefds) && Midway(before, first, deeds, readfds, writefds, fd)
    ensures Good(l) && Midway(l, first, deeds + [d], readfds, writefds, fd + 1)
  {
    assert SameHolder(before, first, fd);
    l, d := HandleWrite(before, fd);
    MidwayDeed(before, l, first, deeds, d, readfds, writefds, fd);
  }

  /** One turn of the scan: read side first, write side unless that closed the descriptor. */
  method Visit(
    ghost first: Loop, ghost soFar: seq<Deed>, before: Loop, fd: nat, readfds: set<nat>, writefds: set<nat>, due: nat)
    returns (l: Loop, nready: nat, alive: bool, ghost deeds: seq<Deed>)
    requires Good(before)
    requires Reported(first, readfds, writefds) && Midway(before, first, soFar, readfds, writefds, fd)
    requires due == Due(readfds, writefds, fd)
    ensures Good(l) && Midway(l, first, deeds, readfds, writefds, fd + 1)
    ensures nready == Due(readfds, writefds, fd + 1)
  {
    l, nready, alive, deeds := before, due, true, soFar;
    FromNext(readfds, fd);
    FromNext(writefds, fd);
    var closed := false;
    var d;
    if fd in readfds {
      nready := nready - 1;
      l, closed, alive, d := VisitRead(first, soFar, before, fd, readfds, writefds);
      deeds := soFar + [d];
      assert fd !in writefds by {
        assert fd in writefds ==> fd in readfds * writefds;
      }
    }
    if !closed && fd in writefds {
      nready := nready - 1;
      l, d := VisitWrite(first, soFar, before, fd, readfds, writefds);
      deeds := soFar + [d];
    }
    if fd !in readfds + writefds {
      MidwaySkip(before, first, soFar, readfds, writefds, fd);
    }
  }

  /** What a finished pass has done: exactly one deed for everything reported, each for the
      connection it was reported for, and nothing but these deeds. */
  ghost predicate Finished(l: Loop, first: Loop, deeds: seq<Deed>, readfds: set<nat>, writefds: set<nat>) {
    && l.listener == first.listener && first.fdsetMax <= l.fdsetMax && Reaches(first.books, deeds, l.books)
    && DealtWith(deeds) == readfds + writefds && |deeds| == |readfds| + |writefds|
    && forall i :: 0 <= i < |deeds| ==> Answers(deeds[i], first.listener, readfds, writefds)
  }

  lemma ScanIsFinished(
    l: Loop, first: Loop, deeds: seq<Deed>, readfds: set<nat>, writefds: set<nat>, fd: nat)
    requires Midway(l, first, deeds, readfds, writefds, fd)
    requires Due(readfds, writefds, fd) == 0 || forall x :: x in readfds + writefds ==> x < fd
    ensures Finished(l, first, deeds, readfds, writefds)
  {
    assert From(readfds, 0) == readfds && From(writefds, 0) == writefds;
    assert forall x :: x in From(readfds, fd) + From(writefds, fd) ==> x in readfds + writefds && x >= fd;
    assert From(readfds, fd) == {} && From(writefds, fd) == {};
    assert forall x :: x in readfds && x >= fd ==> x in From(readfds, fd);
    assert forall x :: x in writefds && x >= fd ==> x in From(writefds, fd);
    assert Seen(readfds + writefds, fd) == readfds + writefds;
  }

  lemma ReportedWithin(first: Loop, readfds: set<nat>, writefds: set<nat>)
    requires Good(first) && readfds <= first.readMaster && writefds <= first.writeMaster
    ensures Reported(first, readfds, writefds)
    ensures forall x :: x in readfds ==> x <= first.fdsetMax && (x in first.books.owner || x == first.listener)
    ensures forall x :: x in writefds ==> x <= first.fdsetMax && x in first.books.owner
  {
    forall x | x in readfds
      ensures x !in writefds
    {
      assert x in first.books.owner ==> PeerWatched(first, x);
    }
  }

  /** The start of a pass: select reports within the sets it was given. */
  lemma PassStarts(first: Loop, readfds: set<nat>, writefds: set<nat>)
    requires Reported(first, readfds, writefds)
    requires forall x :: x in readfds ==> x in first.books.owner || x == first.listener
    requires forall x :: x in writefds ==> x in first.books.owner
    ensures Midway(first, first, [], readfds, writefds, 0)
    ensures Due(readfds, writefds, 0) == |readfds| + |writefds|
  {
    assert From(readfds, 0) == readfds && From(writefds, 0) == writefds;
  }

  lemma ScannedWithin(
    l: Loop, first: Loop, deeds: seq<Deed>, readfds: set<nat>, writefds: set<nat>, fd: nat)
    requires Midway(l, first, deeds, readfds, writefds, fd)
    ensures Reaches(first.books, deeds, l.books) && DealtWith(deeds) <= readfds + writefds
  {
  }

  /** One pass over whatever select reported.  The scan stops once it has seen as many
      events as were reported, under an upper bound that grows as peers arrive; it still
      does exactly one deed for everything reported, and none for anyone else.  If the
      process ends on the way, it has done proper deeds up to there. */
  method Pass(first: Loop, readfds: set<nat>, writefds: set<nat>) returns (l: Loop, alive: bool, ghost deeds: seq<Deed>)
    requires Good(first)
    requires readfds <= first.readMaster && writefds <= first.writeMaster
    ensures Good(l) && Reaches(first.books, deeds, l.books) && DealtWith(deeds) <= readfds + writefds
    ensures alive ==> Finished(l, first, deeds, readfds, writefds)
  {
    ReportedWithin(first, readfds, writefds);
    PassStarts(first, readfds, writefds);
    l, alive, deeds := first, true, [];
    var nready := |readfds| + |writefds|;
    var fd := 0;
    while fd <= l.fdsetMax && nready > 0
      invariant Good(l)
      invariant Midway(l, first, deeds, readfds, writefds, fd)
      invariant nready == Due(readfds, writefds, fd)
      decreases FD_SETSIZE - fd
    {
      l, nready, alive, deeds := Visit(first, deeds, l, fd, readfds, writefds, nready);
      fd := fd + 1;
      if !alive {
        break;
      }
    }
    ScannedWithin(l, first, deeds, readfds, writefds, fd);
    if alive {
      ScanIsFinished(l, first, deeds, readfds, writefds, fd);
    }
  }

  // ---------------------------------------------------------------------- runs

  function Initial(listener: nat): Loop {
    Loop(listener, NoBooks(MAXFDS), {listener}, {}, listener)
  }

  /** `l'` is `l` after a finished pass over something select may report. */
  ghost predicate Passed(l: Loop, l': Loop) {
    exists deeds, readfds, writefds ::
      readfds <= l.readMaster && writefds <= l.writeMaster && Finished(l', l, deeds, readfds, writefds)
  }

  /** The states between passes, all of them good. */
  ghost predicate IsRun(run: seq<Loop>, listener: nat) {
    0 < |run| && run[0] == Initial(listener) && Chain(run, Good, Passed)
  }

  lemma RunBegins(listener: nat)
    requires listener < FD_SETSIZE
    ensures Good(Initial(listener)) && IsRun([Initial(listener)], listener)
  {
    NewPeersGenuine(MAXFDS);
    assert Good(Initial(listener));
  }

  /** A pass over anything select may report. */
  method AnyPass(l: Loop, ghost run: seq<Loop>, ghost listener: nat) returns (l': Loop, alive: bool)
    requires Good(l) && IsRun(run, listener) && l == run[|run| - 1]
    ensures Good(l') && Continued(l.books, l'.books) && (alive ==> IsRun(run + [l'], listener))
  {
    assert {} <= l.readMaster && {} <= l.writeMaster;
    var readfds, writefds :| readfds <= l.readMaster && writefds <= l.writeMaster;
    ghost var deeds;
    l', alive, deeds := Pass(l, readfds, writefds);
    if alive {
      assert Passed(l, l');
      ChainGrows(run, l', Good, Passed);
    }
  }

  /** Any number of passes, each over anything select may report, until the process ends. */
  method Serve(listener: nat, passes: nat) returns (l: Loop, alive: bool, ghost run: seq<Loop>)
    requires listener < FD_SETSIZE
    ensures Good(l) && IsRun(run, listener)
    ensures if alive then |run| == passes + 1 && l == run[passes] else Continued(run[|run| - 1].books, l.books)
  {
    l, alive := Initial(listener), true;
    RunBegins(listener);
    run := [l];
    for i := 0 to passes
      invariant alive && Good(l) && IsRun(run, listener) && |run| == i + 1 && l == run[i]
    {
      l, alive := AnyPass(l, run, listener);
      if !alive {
        return;
      }
      run := run + [l];
    }
  }

  /** In every good state: an open peer has been sent a front of the answer to its own input,
      is watched for writing exactly while the rest is pending, and otherwise has its whole
      staging buffer free. */
  lemma OpenPeerIsServed(l: Loop, fd: nat)
    requires Good(l) && fd in l.books.owner
    ensures var p, trace := l.books.peers.now[fd], l.books.peers.trace;
            && Told(trace, fd) + Pending(p) == Answer(Heard(trace, fd))
            && if Pending(p) == [] then fd in l.readMaster && fd !in l.writeMaster && Room(p) == SENDBUF_SIZE
               else fd in l.writeMaster && fd !in l.readMaster && Room(p) == 0
  {
    HolderIsAnswered(l.books, fd);
    assert PeerWatched(l, fd);
  }

  ghost function BooksOf(run: seq<Loop>): (bs: seq<Books>)
    ensures |bs| == |run| && forall k :: 0 <= k < |run| ==> bs[k] == run[k].books
  {
    seq(|run|, k requires 0 <= k < |run| => run[k].books)
  }

  lemma RunKeepsBooks(run: seq<Loop>)
    requires Chain(run, Good, Passed)
    ensures Kept(BooksOf(run))
  {
    var bs := BooksOf(run);
    forall k
      ensures GoodAt(bs, k, Sound)
    {
      assert GoodAt(run, k, Good);
    }
    forall k
      ensures StepAt(bs, k, Continued)
    {
      assert StepAt(run, k, Passed);
    }
  }

  /** Over any run: between two states in which a descriptor has the same holder, everything
      that connection sent and was sent stays, and grows; and it was sent a front of its answer. */
  lemma RunServesPeers(run: seq<Loop>, listener: nat, i: nat, j: nat, fd: nat)
    requires IsRun(run, listener) && i <= j < |run|
    requires fd in run[i].books.owner && fd in run[j].books.owner && run[i].books.owner[fd] == run[j].books.owner[fd]
    ensures Grown(run[i].books, run[j].books, fd)
    ensures Told(run[j].books.peers.trace, fd) <= Answer(Heard(run[j].books.peers.trace, fd))
  {
    RunKeepsBooks(run);
    StreamsGrow(BooksOf(run), i, j, fd);
    assert GoodAt(run, j, Good);
    HolderIsAnswered(run[j].books, fd);
  }
}
