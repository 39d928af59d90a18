/** The bounded circular queue of accepted descriptors. */
module FdQueue {

  /** Indices into the ring stay below twice its size, where wrapping is one subtraction. */
  function Wrap(x: nat, n: nat): nat
    requires x < 2 * n
  {
    if x < n then x else x - n
  }

  lemma WrapIsModulo(x: nat, n: nat)
    requires x < 2 * n
    ensures Wrap(x, n) == x % n
  {
    if x >= n {
      assert x == n + (x - n);
      assert (x - n) % n == x - n;
      assert x / n == 1;
    }
  }

  /** `head` is the next slot to read, `tail` the next to write. */
  datatype Ring = Ring(fds: seq<int>, head: nat, tail: nat, count: nat)

  ghost predicate WellFormed(r: Ring) {
    r.head < |r.fds| && r.count <= |r.fds| && r.tail == Wrap(r.head + r.count, |r.fds|)
  }

  /** What is queued, oldest first. */
  ghost function Contents(r: Ring): (c: seq<int>)
    requires WellFormed(r)
    ensures |c| == r.count && forall i :: 0 <= i < r.count ==> c[i] == r.fds[Wrap(r.head + i, |r.fds|)]
  {
    seq(r.count, i requires 0 <= i < r.count => r.fds[Wrap(r.head + i, |r.fds|)])
  }

  function Pushed(r: Ring, fd: int): Ring
    requires r.tail < |r.fds|
  {
    Ring(r.fds[r.tail := fd], r.head, Wrap(r.tail + 1, |r.fds|), r.count + 1)
  }

  function Popped(r: Ring): Ring
    requires r.head < |r.fds| && r.count > 0
  {
    Ring(r.fds, Wrap(r.head + 1, |r.fds|), r.tail, r.count - 1)
  }

  lemma PushAppends(r: Ring, fd: int)
    requires WellFormed(r) && r.count < |r.fds|
    ensures WellFormed(Pushed(r, fd)) && Contents(Pushed(r, fd)) == Contents(r) + [fd]
  {
    var after := Contents(Pushed(r, fd));
    forall i | 0 <= i < |after|
      ensures after[i] == (Contents(r) + [fd])[i]
    {
      assert Wrap(r.head + i, |r.fds|) == r.tail <==> i == r.count;
    }
  }

  lemma PopTakesFirst(r: Ring)
    requires WellFormed(r) && r.count > 0
    ensures WellFormed(Popped(r)) && Contents(r) == [r.fds[r.head]] + Contents(Popped(r))
  {
    var rest := Contents(Popped(r));
    forall i | 0 <= i < |rest|
      ensures Contents(r)[i + 1] == rest[i]
    {
      assert Wrap(r.head + (i + 1), |r.fds|) == Wrap(Popped(r).head + i, |r.fds|);
    }
  }

  /** The queue in memory, as the critical sections of push and pop use it. */
  class Queue {
    const fds: array<int>
    var head: nat
    var tail: nat
    var count: nat
    var totalEnqueued: nat

    ghost function View(): Ring
      reads this, fds
    {
      Ring(fds[..], head, tail, count)
    }

    constructor (capacity: nat)
      requires capacity > 0
      ensures WellFormed(View()) && Contents(View()) == [] && fds.Length == capacity && fresh(fds)
    {
      fds := new int[capacity];
      head, tail, count, totalEnqueued := 0, 0, 0, 0;
    }

    /** The body of push once there is room. */
    method Store(fd: int)
      requires WellFormed(View()) && count < fds.Length
      modifies this, fds
      ensures View() == Pushed(old(View()), fd) && totalEnqueued == old(totalEnqueued) + 1
      ensures WellFormed(View()) && Contents(View()) == old(Contents(View())) + [fd]
    {
      PushAppends(View(), fd);
      WrapIsModulo(tail + 1, fds.Length);
      fds[tail] := fd;
      tail := (tail + 1) % fds.Length;
      count := count + 1;
      totalEnqueued := totalEnqueued + 1;
      assert fds[..] == old(fds[..])[old(tail) := fd];
    }

    /** The body of pop once there is something queued. */
    method Take() returns (fd: int)
      requires WellFormed(View()) && count > 0
      modifies this
      ensures View() == Popped(old(View())) && totalEnqueued == old(totalEnqueued)
      ensures WellFormed(View()) && [fd] + Contents(View()) == old(Contents(View()))
    {
      PopTakesFirst(View());
      WrapIsModulo(head + 1, fds.Length);
      fd := fds[head];
      head := (head + 1) % fds.Length;
      count := count - 1;
    }
  }
}
