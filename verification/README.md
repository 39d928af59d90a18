# Concurrent servers, verified

A Dafny model of five ways to serve one framing protocol, of the metrics page they
publish and of the load generator that checks them, with proofs about whole runs.

The protocol: on connect the server sends `*`; outside a frame bytes are discarded
until `^`; inside, each byte comes back incremented modulo 256 until `$`. Everything
hangs on one function, `Framing.Echo`, and on `Framing.Answer`, the bytes a connection
owes its peer in total. The blocking server transforms its receive buffer in place; the
select, epoll and io_uring servers share a parser with a 1024-byte staging buffer per
descriptor. Each is proved to put a front of `Answer(input)` on the wire of each
connection, however the kernel splits reads and writes and whoever held the descriptor
before.

The main results:

- **Framing.** The byte-at-a-time parser sends back exactly the bytes that lie after a `^`
  with no `$` in between (`Framing.EchoMeaning`), and cutting the input anywhere changes
  nothing.
- **Parser table.** In any interleaving of calls over any number of reused descriptors,
  starting from any table contents, sent plus pending bytes are the answer to that
  connection's own input (`PeerRuns.StreamRefinement`). The in-memory classes implement
  the same table.
- **Event loops.** In select and epoll, interest always agrees with parser state, no
  handler runs for anyone but the peer a report was gathered for, and the scan does
  exactly one thing per report although it stops early and its bound moves. Each state of
  a run is the one before with these deeds and the kernel's answers replayed, so no
  connection appears, vanishes or loses part of its stream in any other way. In io_uring,
  every open connection has exactly one operation outstanding, a closed descriptor none,
  and the bytes the kernel moves are the parser's.
- **Thread pool.** No lost wakeup, no lost slot, first in first out, every open connection
  in exactly one place, and the bounds an operator relies on, for any number of workers and
  any queue size, with signals after unlock and spurious wakeups. Left to itself the pool
  comes to rest within a bounded number of steps, with nothing queued beside a sleeper.
- **Metrics.** A scrape that races with observations is bracketed by the truth at its start
  and end and never goes backwards; a truncated page is a terminated front of the full
  page; the full page always fits its buffer.
- **Primality.** The wrapping 64-bit trial division terminates and is right for every word
  except 1, including primes above (2^32 - 1)^2, where the square of the divisor wraps.
- **Load generator.** Over a transport that delivers fronts in order, a client of any of
  these servers counts no mismatch; the exit code is right for every outcome if and only if
  connections times messages fits an int; percentiles are monotone.

## How it is built

Memory that the C code updates in place is an array in a class (`PeerState.Peer`,
`PeerRuns.PeerTable`, `FdQueue.Queue`, the receive buffer of `BlockingServer`, the output
buffer of `Rendering`), and each method is proved against a function on values. The event
loops keep the C code's local variables in a record that their methods pass along, and use
those functions; `EventLoop` holds what select and epoll share. Concurrency is a state
machine whose steps are single atomic actions.

The kernel is not modelled but left free: `Kernel.Recv`, `Kernel.Send` and `Kernel.Accept`
return anything their contracts allow. The assumptions are these: a call moves no more
than it was asked to; a new descriptor is not one currently open; select reports only
watched descriptors and counts what it reports; one epoll batch holds at most one entry
per watched descriptor and no readiness that was not asked for; a send completion took
the front of the buffer it was given. Between client and server, either side receives, in
order, a front of what the other has put on the wire (`LoadGenerator.Transport`). Loops
that run for ever in the source run for every finite number of turns here.

Where the repository's prose and code disagree the code is followed: `README.md` and
`NOTES.md` still describe select and epoll as having parsers of their own, but both use
`src/peer_state.c`.

## Model

| member | source | states |
|---|---|---|
| `Framing.EchoConcat` | src/peer_state.c:103-125 | an input cut anywhere is answered piece by piece as it would be whole |
| `Framing.EchoNoLonger` | src/peer_state.h:63-67 | each input byte produces at most one output byte, which is what makes the unchecked buffer write safe |
| `Framing.EchoMeaning` | src/protocol.h:3-5 | output is exactly the bytes inside frames, in order and incremented, with "inside" defined by positions of delimiters and no state |
| `Framing.FramesEcho` | src/protocol.c:86-103 | back-to-back frames of payloads without the close byte return the parser to waiting and yield the incremented payloads |
| `Framing.AnswerMonotone` | src/protocol.c:58-111 | more input never changes what was already owed |
| `PeerState.Peer.OnConnected` | src/peer_state.c:63-75 | a reused descriptor starts with nothing but the acknowledgement staged, whatever was there |
| `PeerState.Peer.RecvRoom` | src/peer_state.c:83-91 | the room offered is none until the acknowledgement is out and output drained |
| `PeerState.Peer.ConsumeByte` | src/peer_state.c:104-124 | one turn of the switch appends exactly what the protocol emits for that byte |
| `PeerState.Peer.ConsumeAll` | src/peer_state.c:102-125 | the loop leaves the staging buffer extended by the echo of the input and never writes past its 1024 bytes |
| `PeerState.Peer.Consume` | src/peer_state.c:93-130 | too much input closes with an internal error and changes nothing else; otherwise echo is staged and write interest asked for exactly if there is any |
| `PeerState.Peer.GetPending` | src/peer_state.c:132-140 | hands out what is staged and not yet sent |
| `PeerState.Peer.MarkSent` | src/peer_state.c:142-158 | retires the bytes sent; a drained buffer is reset and the acknowledgement phase left |
| `PeerState.Peer.CloseWith` | src/peer_state.c:58-61 | records the reason and asks for nothing more |
| `PeerState.Peer.OnReadyRecv` | src/peer_state.c:162-190 | for every result recv may give: the verdict, the state and the close reason |
| `PeerState.Peer.OnReadySend` | src/peer_state.c:192-213 | for every result send may give: the verdict, the state and the close reason |
| `PeerRuns.StreamRefinement` | src/peer_state.c:63-158 | in every run over reused descriptors, a connection's sent bytes plus its pending bytes are the answer to its own input |
| `PeerRuns.ToldIsFront` | src/peer_state.c:132-158 | what is on the wire is a front of the answer, and all of it once nothing is pending |
| `PeerRuns.RecvVerdict` | src/peer_state.c:162-190 | reading a drained peer uses the whole buffer, never closes for an internal reason and asks for what the peer now needs |
| `PeerRuns.SendVerdict` | src/peer_state.c:192-213 | writing to a peer with output pending never gives the read-and-write verdict |
| `PeerRuns.PeerTable.constructor` | src/peer_state.c:36-42 | the table has one separate zeroed entry per descriptor |
| `PeerRuns.PeerTable.OnConnected` | src/peer_state.c:63-75 | the table in memory makes the connect step of a run, every other entry unchanged |
| `PeerRuns.PeerTable.FailPeer` | src/peer_state.c:77-79 | the same for a failure noticed by the caller |
| `PeerRuns.PeerTable.Consume` | src/peer_state.c:93-130 | the same for feeding input |
| `PeerRuns.PeerTable.MarkSent` | src/peer_state.c:142-158 | the same for retiring output |
| `PeerRuns.PeerTable.OnReadyRecv` | src/peer_state.c:162-190 | the same for the input handler |
| `PeerRuns.PeerTable.OnReadySend` | src/peer_state.c:192-213 | the same for the output handler |
| `BlockingServer.SendAll` | src/protocol.c:34-48 | success puts everything on the wire, failure a front of it, interruptions are retried |
| `BlockingServer.TransformInPlace` | src/protocol.c:86-103 | the receive buffer is overwritten by its own echo, writes never overtaking reads |
| `BlockingServer.AnswerBuffer` | src/protocol.c:86-107 | one received buffer is answered, or a front of the answer is on the wire |
| `BlockingServer.ServeConnection` | src/protocol.c:58-111 | a connection closed by its peer got its whole answer; any other end left a front of it, at most one buffer behind, with the result the last error calls for; each answered buffer is observed once, an unanswered one not |
| `BlockingServer.Interchangeable` | src/protocol.c:58-111 | fed one stream, the blocking server and the event-driven parser send comparable fronts of one output, and equal output once both are done |
| `EventLoop.VerdictIsSensible` | src/peer_state.c:162-213 | whatever recv or send answers, a handler called for what its peer wants closes it for a reason of the peer's own or asks for what it now needs: no read-and-write verdict, no internal-error close |
| `EventLoop.DoRead` | src/peer_state.c:162-190 | the input handler: the table, the history and the holders become exactly what recv's answer calls for, and nobody else is touched |
| `EventLoop.DoWrite` | src/peer_state.c:192-213 | the same for the output handler and send |
| `EventLoop.DeedKeepsSound` | src/peer_state.c:63-213 | any deed keeps the table a genuine run of its history, with every holder connected |
| `EventLoop.UntouchedIsKept` | src/select_server.c:96-144 | over any deeds, a connection none of them was done on keeps its holder, parser entry and streams, so none vanishes without a call |
| `EventLoop.NewcomersWereAccepted` | src/select_server.c:102-128 | over any deeds, whoever holds a descriptor held it before or was accepted since |
| `EventLoop.ContinuedExtends` | src/peer_state.c:63-158 | from one state of a run to the next the history is extended, never rewritten, and connection numbers are not given out again |
| `EventLoop.HolderStayed` | src/peer_state.c:63-158 | over any deeds, a descriptor whose holder arrived before them had that holder all along, whose streams only grew |
| `EventLoop.StreamsGrow` | src/peer_state.c:63-158 | over any run of an event loop, what a connection sent and was sent stays and grows for as long as it holds its descriptor |
| `EventLoop.HolderIsAnswered` | src/peer_state.c:83-158 | what a holder was sent followed by what is pending is the answer to what it sent, and its room is all or nothing |
| `SelectServer.HandleRead` | src/select_server.c:129-133 | one input deed, for the descriptor's holder, with the verdict applied: the invariant is kept and everyone else holds and wants what they did |
| `SelectServer.HandleWrite` | src/select_server.c:139-143 | the same for the write side |
| `SelectServer.HandleAccept` | src/select_server.c:102-128 | one accept: a descriptor in range joins with a fresh parser entry and a new number, any other answer changes nothing |
| `SelectServer.AppliedStaysWatching` | src/select_server.c:26-44 | applying a verdict keeps the masters in agreement with the parser |
| `SelectServer.Visit` | src/select_server.c:96-144 | one turn of the scan keeps the count of events still due equal to the reports not reached |
| `SelectServer.Pass` | src/select_server.c:81-145 | despite the early exit and the moving bound, the state after a pass is the state before it with exactly one deed replayed for each report, each for the connection holding the descriptor when select returned; a pass cut short has done proper deeds up to there |
| `SelectServer.Serve` | src/select_server.c:56-145 | a run of any number of passes, each state the one before with its deeds replayed, and in every state the invariant: interest, bounds below FD_SETSIZE |
| `SelectServer.OpenPeerIsServed` | src/select_server.c:26-44 | an open peer is watched for writing exactly while output is pending, its room is all or nothing, and its stream is the answer to its input |
| `SelectServer.RunServesPeers` | src/select_server.c:81-145 | over any run, a connection's input and output only grow while it holds its descriptor, and its output is a front of the answer to its input |
| `EpollServer.HandlePeer` | src/epoll_server.c:147-154 | one deed for the holder, input if reported and otherwise output, with the verdict applied |
| `EpollServer.CloseOnError` | src/epoll_server.c:95-107 | an error drops that peer and no other, its parser entry left as it was |
| `EpollServer.HandleAccept` | src/epoll_server.c:109-145 | one accept: a descriptor in range joins, and registering it never collides with a watched one; any other answer changes nothing |
| `EpollServer.SetStaysWatching` | src/epoll_server.c:28-50 | applying a verdict only modifies interest that exists and keeps it in agreement with the parser |
| `EpollServer.HandleEntry` | src/epoll_server.c:92-155 | one entry of a batch, with the rest of the batch still addressed to the right peers, also when the process ends on it |
| `EpollServer.Batch` | src/epoll_server.c:92-155 | the state after a batch is the state before it with, in order, the one deed each entry calls for replayed, each for the connection holding the descriptor when the batch was gathered; a batch cut short has done so for the entries reached |
| `EpollServer.Serve` | src/epoll_server.c:62-156 | a run of any number of batches, each state the one before with its deeds replayed, and in every state the kernel's interest set agrees with parser state |
| `EpollServer.OpenPeerIsServed` | src/epoll_server.c:28-50 | interest, room and stream of every open peer |
| `EpollServer.RunServesPeers` | src/epoll_server.c:83-156 | over any run, a connection's input and output only grow while it holds its descriptor, and its output is a front of the answer to its input |
| `UringServer.PackRoundTrip` | src/uring_server.c:40-50 | operation and descriptor survive the 64 bits of user data, for every int |
| `UringServer.ArmedFits` | src/uring_server.c:82-123 | the operation armed for a verdict is never empty: a full-room receive or a send of a copy of exactly what is pending |
| `UringServer.RecvRearms` | src/uring_server.c:202-218 | the connection goes on exactly after data or a transient error, with the parser level with the kernel and a fitting operation queued |
| `UringServer.SendRearms` | src/uring_server.c:220-231 | the same for a send completion: the bytes retired are the bytes the kernel took |
| `UringServer.WireIsFront` | src/uring_server.c:92-109 | what the kernel has sent is a front of the answer to what it has delivered |
| `UringServer.Submit` | src/uring_server.c:158-159 | taking up an operation keeps the invariant and changes nothing else, neither entries nor buffers |
| `UringServer.Complete` | src/uring_server.c:52-55 | completing one any way the kernel likes keeps the invariant and moves as many bytes as the result says, on that connection only; no parser entry and no other buffer changes |
| `UringServer.OnAccept` | src/uring_server.c:182-200 | the listener is rearmed whatever the result, and exactly a descriptor in range starts a connection, with a blank history |
| `UringServer.Process` | src/uring_server.c:175-233 | a completion known only by its user data ends with the parser level with the kernel and the next operation queued, or with the connection and its job gone and the reason recorded, exactly as the result calls for |
| `UringServer.Serve` | src/uring_server.c:155-236 | a run of any number of kernel and program steps in any interleaving, in every state of which the invariant holds |
| `UringServer.OpenConnectionIsServed` | src/uring_server.c:74-123 | exactly one operation outstanding per open connection, fitting its state, and the wire a front of the answer |
| `UringServer.RunServesPeers` | src/uring_server.c:158-236 | over any run, what the kernel delivered and sent for a connection only grows while it holds its descriptor, and what it sent is a front of the answer |
| `UringServer.ListenerIsArmed` | src/uring_server.c:74-80 | the listener has exactly one accept outstanding |
| `UringServer.ClosedDescriptorIsQuiet` | src/uring_server.c:112-117 | a closed descriptor has nothing outstanding that could reach its next owner |
| `FdQueue.PushAppends` | src/threadpool_server.c:127-129 | the ring write appends to the circular contents |
| `FdQueue.PopTakesFirst` | src/threadpool_server.c:141-143 | the ring read removes the oldest entry |
| `FdQueue.Queue.Store` | src/threadpool_server.c:127-130 | the queue in memory does what the ring function says |
| `FdQueue.Queue.Take` | src/threadpool_server.c:141-143 | the same for removal, returning the oldest descriptor |
| `ThreadPool.ExclusiveKept` | src/threadpool_server.c:121-148 | the mutex holder is the one thread in a critical section, after every step |
| `ThreadPool.FifoKept` | src/threadpool_server.c:121-148 | everything pushed is popped in order or still queued, after every step |
| `ThreadPool.WakeupKept` | src/threadpool_server.c:121-148 | while a worker sleeps, queued connections are covered by workers on their way plus a signal still to come |
| `ThreadPool.SlotKept` | src/threadpool_server.c:121-148 | while the acceptor sleeps beside a free slot, a worker has yet to signal |
| `ThreadPool.ConservedKept` | src/threadpool_server.c:152-172 | every open connection stays in exactly one place |
| `ThreadPool.BusyKept` | src/threadpool_server.c:157-162 | the busy gauge counts the workers inside serve_connection |
| `ThreadPool.TotalsKept` | src/metrics.c:91-102 | the connection counters are off by exactly the updates still to come |
| `ThreadPool.DepthKept` | src/metrics.c:120-122 | the depth gauge is the queue length except between an update and its store |
| `ThreadPool.AlwaysInv` | src/threadpool_server.c:121-172 | all of these in every state of every run, for every number of workers and queue size |
| `ThreadPool.NeverStuck` | src/threadpool_server.c:121-148 | queued work beside a sleeping worker, or a free slot beside the sleeping acceptor, always leaves the pool a step of its own to take |
| `ThreadPool.OwnStepDescends` | src/threadpool_server.c:121-172 | every step of the pool's own leaves it less to do, signals and the wakeups they cause included |
| `ThreadPool.ComesToRest` | src/threadpool_server.c:121-172 | with no new connection, end of a conversation or spurious wakeup, the pool is at rest after at most eleven steps per worker and nine more, whoever is scheduled |
| `ThreadPool.RestIsEarned` | src/threadpool_server.c:121-148 | at rest every worker serves or sleeps beside an empty queue, and the acceptor waits for a connection or for a slot of a full queue |
| `ThreadPool.NeverAllAsleep` | src/threadpool_server.c:121-148 | acceptor and workers are never all asleep |
| `ThreadPool.ServedByOne` | src/threadpool_server.c:152-172 | no connection is in two workers' hands |
| `ThreadPool.PoolBounds` | src/threadpool_server.c:227-249 | open connections never exceed queue depth plus workers plus one, gauges stay in range, pops are a front of pushes |
| `Histogram.BucketIndex` | src/metrics.c:104-111 | finds the first bucket whose bound is not exceeded |
| `Histogram.BucketMeaning` | src/metrics.c:15-18 | a duration counts towards exactly the lines whose bound it does not exceed |
| `Histogram.CountedKept` | src/metrics.c:113-118 | the counters stay what the observations make them until one wraps |
| `Histogram.AlwaysCounted` | src/metrics.c:67-118 | in every run from the initialised registry the counters are what the observations make them, until one wraps |
| `Histogram.ScrapeBracketed` | src/metrics.c:159-184 | in the middle of any interleaving, the lines so far lie between the truth at the start and now |
| `Histogram.ScrapeConsistent` | src/metrics.c:159-184 | a finished scrape in any run is bracketed, any two of its lines are in order, and its total is its last line |
| `Histogram.ScrapesNeverGoBack` | src/metrics.c:159-184 | of two finished scrapes in one run the later never shows less |
| `Rendering.SetModel` | src/metrics.c:45-65 | exactly which label is stored for every name, always one that needs no escaping and fits |
| `Rendering.Appendf` | src/metrics.c:128-141 | writes what fits and counts the rest, keeping the buffer a terminated front of the text |
| `Rendering.RenderFamily` | src/metrics.c:143-157 | help, type and sample line of a counter or gauge |
| `Rendering.RenderLatency` | src/metrics.c:159-184 | the histogram's lines |
| `Rendering.MetricsRender` | src/metrics.c:186-216 | the length returned is that of the full page whatever the room, and the room holds a terminated front of it |
| `Rendering.BodyFits` | src/metrics_server.c:86-95 | for all counter values and labels the page fits the server's buffer, so the error branch is not taken |
| `Rendering.BoundNamesTrue` | src/metrics.c:15-23 | the bound printed for each bucket is the bound it is kept for |
| `Rendering.PageShowsScrape` | src/metrics.c:159-184 | the page of a finished scrape has a line for every bucket, with bracketed values in order, a count equal to the last, and the bracketed sum |
| `Kernel.WriteAll` | src/metrics_server.c:30-44 | everything is sent, or a call failed for good, never by interruption alone |
| `Rendering.SendPage` | src/metrics_server.c:91-108 | what is sent is the response for the page in the buffer, or a front of it; the error response if it was cut short |
| `Rendering.SendMetrics` | src/metrics_server.c:86-108 | for all counter values the page itself goes out under its true length, or a front of that, and never the error response |
| `Rendering.SecondsExact` | src/metrics.c:179-181 | the digits on both sides of the point give back the nanoseconds |
| `Rendering.ContentLengthTrue` | src/metrics_server.c:97-103 | the announced length reads back as the length of what follows the head (section 8.6 of RFC 9110) |
| `Primality.IsPrime` | src/uv_isprime_server.c:63-76 | for every 64-bit number: terminates, and answers true exactly for primes and for 1 |
| `Primality.TriedEnough` | src/uv_isprime_server.c:63-64 | an odd number with no odd divisor up to its square root is prime |
| `Primality.GoesOn` | src/uv_isprime_server.c:70-74 | while the wrapped square does not exceed the number, the divisor is smaller than the number and a stopping point lies ahead |
| `Primality.TriedAll` | src/uv_isprime_server.c:70-74 | when the wrapped square exceeds the number, so does the true one |
| `Primality.ParseNumber` | src/uv_isprime_server.c:133-141 | the leading digits, modulo 2^64 |
| `Primality.Reply` | src/uv_isprime_server.c:85-94 | the reply to any request |
| `Primality.RequestRoundTrip` | src/uv_isprime_server.c:130-141 | a number written in decimal and ended by a non-digit is read back |
| `LoadGenerator.BuildRequest` | bench/loadgen.c:222-229 | the request is a frame around the payload and the expected reply its increment |
| `LoadGenerator.NextReply` | bench/loadgen.c:231-249 | one more frame is answered by one more incremented payload |
| `LoadGenerator.RecvExact` | bench/loadgen.c:151-168 | reads exactly the next bytes of what arrives, in order, or fails having read fewer, never by interruption alone |
| `LoadGenerator.Exchange` | bench/loadgen.c:234-247 | the stream read stays the answer to the stream sent exactly if it was and this reply matched; a request that fails has put out a front of its frame and brought back less than its reply |
| `LoadGenerator.ConnMain` | bench/loadgen.c:185-253 | how a connection can end; no mismatch counted if and only if every byte read for a completed request is the byte owed; reading nothing but what is owed never counts one |
| `LoadGenerator.BlockingServerIsCorrect` | src/protocol.c:58-111 | having heard a front of what the client sent, the blocking server has sent a front of what it owes |
| `LoadGenerator.ParserIsCorrect` | src/peer_state.c:63-158 | the same for the parser table in any run |
| `LoadGenerator.SelectServerIsCorrect` | src/select_server.c:81-145 | the same for every open peer in every state of a run of the select server |
| `LoadGenerator.EpollServerIsCorrect` | src/epoll_server.c:83-156 | the same for the epoll server |
| `LoadGenerator.UringServerIsCorrect` | src/uring_server.c:158-236 | the same for the io_uring server and the bytes its kernel moved |
| `LoadGenerator.OwedIsMatched` | bench/loadgen.c:231-249 | a client that has read nothing but what it is owed has counted no mismatch |
| `LoadGenerator.ClientOfBlockingServer` | bench/loadgen.c:185-253 | over a transport that delivers fronts in order, a client of the blocking server counts no mismatch |
| `LoadGenerator.ClientOfSelectServer` | bench/loadgen.c:185-253 | the same for the select server in every state of every run |
| `LoadGenerator.ClientOfEpollServer` | bench/loadgen.c:185-253 | the same for the epoll server |
| `LoadGenerator.ClientOfUringServer` | bench/loadgen.c:185-253 | the same for the io_uring server |
| `LoadGenerator.Verdict` | bench/loadgen.c:345-350 | the exit code from the wrapped sums |
| `LoadGenerator.VerdictSound` | bench/loadgen.c:415-416 | with fewer than 2^31 requests in all, exit 0 if and only if all completed and matched |
| `LoadGenerator.VerdictFooled` | bench/loadgen.c:345-350 | otherwise some failing run exits 0 |
| `LoadGenerator.VerdictExact` | bench/loadgen.c:415-416 | so the exit code is right for every outcome exactly when connections times messages fits an int |
| `LoadGenerator.PercentileMonotone` | bench/loadgen.c:261-270 | percentiles grow with p and stay between the first and last sample |
| `LoadGenerator.PercentileEnds` | bench/loadgen.c:261-270 | the extremes are the first and the last sample |
| `LoadGenerator.ReportOrdered` | bench/loadgen.c:396-400 | the printed percentiles are in order and at most the maximum |

## Left out

- Sockets, signals, errno texts, logging and clocks: parameters or free choices of the kernel.
- The libuv echo server, whose buffer handling depends on libuv's callback order, and the rest of the primality server around its arithmetic.
- Thread pool shutdown: after a stop request nothing is drained, and no graceful end is claimed.
- Fairness: a worker may serve one peer for ever, so the pool is proved to come to rest with no work undone that it could do, not to serve everyone.
- `UringServer.Serve`: keeps outstanding operations in one list with a stage each rather than in two rings, so completions may be handled in any order; the submission queue running full, which ends the process, is not modelled.
- `UringServer.Complete`: the per-descriptor I/O buffers are values replaced as a whole, not arrays written in place.
- `SelectServer.Pass`: uses the parser's functions on values; that the table in memory computes those functions is proved in `PeerRuns.PeerTable`.
- `EpollServer.Batch`: the same.
- `Histogram.ScrapeConsistent`: counters that have not wrapped 2^64; different metrics in one scrape are not claimed to agree, and memory orders are taken as sequentially consistent.
- `LoadGenerator.Verdict`: signed overflow, undefined in C, is taken as two's complement wrapping.
- `LoadGenerator.ConnMain`: all threads are taken to have started; the path for threads that failed to start is not modelled.
- `LoadGenerator.PercentileMonotone`: real numbers instead of floating point, and a sorted sample as qsort leaves it.
- The request reader of the metrics server, its accept loop and its 404 answer.
- The sequential and thread-per-connection servers, which only call `serve_connection`, and the Python servers, demos, scripts and deployment files.
