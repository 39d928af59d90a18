/** What the operating system may answer.  Every method here picks any result its
    contract allows, so a caller proved correct is correct for every kernel that
    keeps the stated promise. */
module Kernel {
  import opened Framing

  datatype Option<+T> = None | Some(value: T)

  datatype Errno = EIntr | EAgain | EConnReset | EPipe | ETimedOut | EOther(code: nat)

  datatype RecvResult = Received(data: seq<Byte>) | EndOfStream | RecvFailed(errno: Errno)

  datatype SendResult = Wrote(n: nat) | SendFailed(errno: Errno)

  datatype AcceptResult = Accepted(fd: nat) | TryAgain | AcceptFailed

  predicate MayReceive(r: RecvResult, want: nat) {
    r.Received? ==> 0 < |r.data| <= want
  }

  predicate MayWrite(r: SendResult, len: nat) {
    r.Wrote? ==> r.n <= len
  }

  predicate MayAccept(r: AcceptResult, open: set<nat>) {
    r.Accepted? ==> r.fd !in open
  }

  /** recv: at least one byte and at most `want` of them, end of stream, or an error. */
  method Recv(want: nat) returns (r: RecvResult)
    ensures MayReceive(r, want)
  {
    assert MayReceive(EndOfStream, want);
    r :| MayReceive(r, want);
  }

  /** send: at most `len` bytes, or an error. */
  method Send(len: nat) returns (r: SendResult)
    ensures MayWrite(r, len)
  {
    assert MayWrite(Wrote(0), len);
    r :| MayWrite(r, len);
  }

  /** How a loop over send ended.  `Unseen` ends the observation, not the loop: contracts hold for
      every number of calls observed. */
  datatype Ending = Whole | Broken(errno: Errno) | Unseen

  /** Sends until `len` bytes have gone or a call fails for good. */
  method WriteAll(len: nat, calls: nat) returns (sent: nat, end: Ending)
    ensures sent <= len && (end.Whole? <==> sent == len)
    ensures end.Broken? ==> !end.errno.EIntr?
  {
    sent := 0;
    var left := calls;
    while sent < len
      invariant sent <= len
      decreases left
    {
      if left == 0 {
        return sent, Unseen;
      }
      left := left - 1;
      var r := Send(len - sent);
      match r {
        case Wrote(n) =>
          sent := sent + n;
        case SendFailed(e) =>
          if !e.EIntr? {
            return sent, Broken(e);
          }
      }
    }
    end := Whole;
  }

  /** accept: any descriptor that is not currently open, whoever held it before. */
  method Accept(open: set<nat>) returns (r: AcceptResult)
    ensures MayAccept(r, open)
  {
    assert MayAccept(TryAgain, open);
    r :| MayAccept(r, open);
  }
}
