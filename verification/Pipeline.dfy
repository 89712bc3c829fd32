/**
 * The sender's striping pipeline (pkg/transfer/sender/multi.go) as a step system: one producer,
 * n workers and the coordinating routine, over a bounded chunk queue, a buffer store and n
 * outgoing message logs. One event is one action of one routine; any enabled event may come next.
 */
module Pipeline {
  import opened Bytes
  import opened Frames
  import opened Pieces
  import opened Coders

  /** multiChunk: its payload is the first len bytes of the pooled buffer buf. */
  datatype Chunk = Chunk(offset: nat, len: nat, buf: nat)

  datatype Producer =
    | AtTop                             // about to take a buffer from the pool
    | Holding(buf: nat)                 // buffer in hand, about to read
    | Ready(chunk: Chunk, last: bool)   // about to push; last after an unexpected EOF
    | Closing(failed: bool)             // loop left, channel not yet closed
    | Closed(failed: bool)              // channel closed, result not yet delivered
    | Exited

  datatype Worker =
    | Starting                          // encoder not yet created
    | Idle
    | Hold(chunk: Chunk)                // popped, not yet sent
    | Sent(chunk: Chunk)                // sent, buffer not yet released
    | Exit(ok: bool)

  datatype Main =
    | Waiting                           // wg.Wait
    | Draining
    | DrainHand(chunk: Chunk)
    | AwaitProducer                     // <-prodErr
    | Flushing
    | Completed                         // TRANSFER_COMPLETE sent
    | CompleteFailed
    | Aborted

  datatype Config = Config(file: bytes, n: nat, coder: Coder)

  datatype State = State(
    prod: Producer,
    read: nat,                          // bytes cut into chunks so far
    queue: seq<Chunk>,
    closed: bool,
    prodErr: Option<bool>,              // delivered result: failed or not
    workers: seq<Worker>,
    main: Main,
    bufs: map<nat, bytes>,              // contents of every buffer ever made
    pool: multiset<nat>,
    sent: seq<seq<Frame>>,              // per peer, everything handed to its channel
    sentBytes: nat,                     // NetworkStats
    cancelled: bool,
    lost: seq<Chunk>,                   // history: chunks released without having been sent
    abandoned: nat)                     // history: bytes sent but not added to the statistics

  datatype Event =
    | ProdGet(b: nat)
    | ProdRead
    | ProdReadFail(junk: bytes)
    | ProdPush
    | ProdClose
    | ProdExit
    | WorkerStart(i: nat)
    | WorkerStartFail(i: nat)
    | WorkerPop(i: nat)
    | WorkerEnd(i: nat)
    | WorkerQuit(i: nat)
    | WorkerSend(i: nat)
    | WorkerSendFail(i: nat)
    | WorkerDone(i: nat)
    | WorkerAbandon(i: nat)
    | Cancel
    | MainWait
    | DrainPop
    | DrainRelease
    | DrainEnd
    | MainRead
    | MainComplete(ok: bool)

  /** Events that only a failure or a cancellation brings about. */
  predicate IsFault(e: Event) {
    e.ProdReadFail? || e.WorkerStartFail? || e.WorkerQuit? || e.WorkerSendFail? || e.WorkerAbandon?
    || e.Cancel? || e == MainComplete(false)
  }

  function Zeros(): (z: bytes)
    ensures |z| == CHUNK_SIZE
  {
    seq(CHUNK_SIZE, _ => 0)
  }

  predicate Init(c: Config, s: State) {
    && s.prod == AtTop && s.read == 0 && s.queue == [] && !s.closed && s.prodErr == None
    && |s.workers| == c.n && (forall i :: 0 <= i < c.n ==> s.workers[i] == Starting)
    && s.main == Waiting && s.bufs == map[] && s.pool == multiset{}
    && |s.sent| == c.n && (forall i :: 0 <= i < c.n ==> s.sent[i] == [])
    && s.sentBytes == 0 && !s.cancelled && s.lost == [] && s.abandoned == 0
  }

  /** Piece of the file that starts at offset. */
  function PieceAt(file: bytes, offset: nat): bytes
    requires offset <= |file|
  {
    file[offset..offset + PieceLen(|file|, offset)]
  }

  /** The DATA frame a worker sends for a chunk, from what its buffer holds at that moment. */
  function FrameFor(c: Config, s: State, k: Chunk): Frame
    requires k.buf in s.bufs && k.len <= |s.bufs[k.buf]| && k.offset < TWO64
  {
    Data(k.offset, c.coder.Encode(s.bufs[k.buf][..k.len]))
  }

  predicate AllExited(s: State) { forall i :: 0 <= i < |s.workers| ==> s.workers[i].Exit? }

  ghost predicate SomeFailed(s: State) { exists i :: 0 <= i < |s.workers| && s.workers[i] == Exit(false) }

  predicate ProducerStep(c: Config, s: State, e: Event, s': State) {
    match e
    case ProdGet(b) =>
      && s.prod.AtTop?
      && (b in s.pool || b !in s.bufs)
      && s' == s.(prod := Holding(b),
                  pool := s.pool - multiset{b},
                  bufs := if b in s.bufs then s.bufs else s.bufs[b := Zeros()])
    case ProdRead =>
      && s.prod.Holding? && s.prod.buf in s.bufs && s.read <= |c.file|
      && (var b, n := s.prod.buf, PieceLen(|c.file|, s.read);
          && n <= |s.bufs[b]|
          && if n == 0 then s' == s.(prod := Closing(false), pool := s.pool + multiset{b})
             else s' == s.(prod := Ready(Chunk(s.read, n, b), n < CHUNK_SIZE),
                           read := s.read + n,
                           bufs := s.bufs[b := c.file[s.read..s.read + n] + s.bufs[b][n..]]))
    case ProdReadFail(junk) =>
      && s.prod.Holding? && |junk| == CHUNK_SIZE
      && s' == s.(prod := Closing(true), pool := s.pool + multiset{s.prod.buf},
                  bufs := s.bufs[s.prod.buf := junk])
    case ProdPush =>
      && s.prod.Ready? && |s.queue| < 2 * c.n
      && s' == s.(queue := s.queue + [s.prod.chunk],
                  prod := if s.prod.last then Closing(false) else AtTop)
    case ProdClose => s.prod.Closing? && s' == s.(prod := Closed(s.prod.failed), closed := true)
    case ProdExit => s.prod.Closed? && s' == s.(prod := Exited, prodErr := Some(s.prod.failed))
    case _ => false
  }

  predicate WorkerStep(c: Config, s: State, i: nat, e: Event, s': State) {
    && i < |s.workers| == |s.sent|
    && var w := s.workers[i];
       match e
       case WorkerStart(_) => w.Starting? && s' == s.(workers := s.workers[i := Idle])
       case WorkerStartFail(_) =>
         w.Starting? && c.coder.Zstd? && s' == s.(workers := s.workers[i := Exit(false)])
       case WorkerPop(_) =>
         w.Idle? && s.queue != []
         && s' == s.(queue := s.queue[1..], workers := s.workers[i := Hold(s.queue[0])])
       case WorkerEnd(_) =>
         w.Idle? && s.queue == [] && s.closed && s' == s.(workers := s.workers[i := Exit(true)])
       case WorkerQuit(_) => w.Idle? && s.cancelled && s' == s.(workers := s.workers[i := Exit(false)])
       case WorkerSend(_) =>
         && w.Hold? && w.chunk.buf in s.bufs && w.chunk.len <= |s.bufs[w.chunk.buf]| && w.chunk.offset < TWO64
         && s' == s.(workers := s.workers[i := Sent(w.chunk)],
                     sent := s.sent[i := s.sent[i] + [FrameFor(c, s, w.chunk)]])
       case WorkerSendFail(_) =>
         w.Hold?
         && s' == s.(workers := s.workers[i := Exit(false)], pool := s.pool + multiset{w.chunk.buf},
                     lost := s.lost + [w.chunk])
       case WorkerDone(_) =>
         w.Sent?
         && s' == s.(workers := s.workers[i := Idle], pool := s.pool + multiset{w.chunk.buf},
                     sentBytes := s.sentBytes + w.chunk.len)
       case WorkerAbandon(_) =>
         w.Sent? && s.cancelled
         && s' == s.(workers := s.workers[i := Exit(false)], pool := s.pool + multiset{w.chunk.buf},
                     abandoned := s.abandoned + w.chunk.len)
       case _ => false
  }

  predicate MainStep(s: State, e: Event, s': State) {
    match e
    case Cancel => !s.cancelled && s' == s.(cancelled := true)
    case MainWait => s.main.Waiting? && AllExited(s) && s' == s.(main := Draining)
    case DrainPop =>
      s.main.Draining? && s.queue != [] && s' == s.(main := DrainHand(s.queue[0]), queue := s.queue[1..])
    case DrainRelease =>
      s.main.DrainHand?
      && s' == s.(main := Draining, pool := s.pool + multiset{s.main.chunk.buf}, lost := s.lost + [s.main.chunk])
    case DrainEnd => s.main.Draining? && s.queue == [] && s.closed && s' == s.(main := AwaitProducer)
    case MainRead =>
      s.main.AwaitProducer? && s.prodErr.Some?
      && s' == s.(main := if s.prodErr.value || !AllOk(s) then Aborted else Flushing)
    case MainComplete(ok) =>
      s.main.Flushing? && s' == s.(main := if ok then Completed else CompleteFailed)
    case _ => false
  }

  predicate AllOk(s: State) { forall i :: 0 <= i < |s.workers| ==> s.workers[i] == Exit(true) }

  /** Worker an event belongs to; the number of workers for other events. */
  function Actor(e: Event, n: nat): nat {
    match e
    case WorkerStart(i) => i
    case WorkerStartFail(i) => i
    case WorkerPop(i) => i
    case WorkerEnd(i) => i
    case WorkerQuit(i) => i
    case WorkerSend(i) => i
    case WorkerSendFail(i) => i
    case WorkerDone(i) => i
    case WorkerAbandon(i) => i
    case _ => n
  }

  predicate Step(c: Config, s: State, e: Event, s': State) {
    || ProducerStep(c, s, e, s')
    || WorkerStep(c, s, Actor(e, |s.workers|), e, s')
    || MainStep(s, e, s')
  }
}
