/** What every step of the striping pipeline keeps, and what follows over whole runs. */
module PipelineProofs {
  import opened Bytes
  import opened Frames
  import opened Pieces
  import opened Coders
  import opened Tallies
  import opened Pipeline

  // ---- Counting owners of a buffer ----

  ghost function ChunkBuf(b: nat): Chunk -> nat { (k: Chunk) => if k.buf == b then 1 else 0 }

  ghost function WorkerBuf(b: nat): Worker -> nat {
    (w: Worker) => if (w.Hold? || w.Sent?) && w.chunk.buf == b then 1 else 0
  }

  ghost function ProdBuf(p: Producer, b: nat): nat {
    if (p.Holding? && p.buf == b) || (p.Ready? && p.chunk.buf == b) then 1 else 0
  }

  ghost function MainBuf(m: Main, b: nat): nat { if m.DrainHand? && m.chunk.buf == b then 1 else 0 }

  /** How many hold buffer b: the pool, the producer, the queue, the workers and the drain loop. */
  ghost function Owners(s: State, b: nat): nat {
    s.pool[b] + ProdBuf(s.prod, b) + Tally(s.queue, ChunkBuf(b)) + Tally(s.workers, WorkerBuf(b)) + MainBuf(s.main, b)
  }

  // ---- Counting the places of a chunk ----

  ghost function ChunkAt(o: nat): Chunk -> nat { (k: Chunk) => if k.offset == o then 1 else 0 }

  ghost function WorkerAt(o: nat): Worker -> nat { (w: Worker) => if w.Hold? && w.chunk.offset == o then 1 else 0 }

  ghost function FrameAt(o: nat): Frame -> nat { (f: Frame) => if f.Data? && f.offset == o then 1 else 0 }

  ghost function LogAt(o: nat): seq<Frame> -> nat { (log: seq<Frame>) => Tally(log, FrameAt(o)) }

  /** How often the chunk at offset o has been sent, over all peers. */
  ghost function SentCount(sent: seq<seq<Frame>>, o: nat): nat { Tally(sent, LogAt(o)) }

  /** How many places the chunk at offset o is in: with the producer, queued, held, sent or lost. */
  ghost function Places(s: State, o: nat): nat {
    (if s.prod.Ready? && s.prod.chunk.offset == o then 1 else 0)
    + Tally(s.queue, ChunkAt(o)) + Tally(s.workers, WorkerAt(o)) + SentCount(s.sent, o)
    + (if s.main.DrainHand? && s.main.chunk.offset == o then 1 else 0) + Tally(s.lost, ChunkAt(o))
  }

  // ---- Counting bytes ----

  ghost function ChunkLen(): Chunk -> nat { (k: Chunk) => k.len }

  ghost function HoldLen(): Worker -> nat { (w: Worker) => if w.Hold? then w.chunk.len else 0 }

  ghost function SentLen(): Worker -> nat { (w: Worker) => if w.Sent? then w.chunk.len else 0 }

  ghost function FrameLen(size: nat): Frame -> nat { (f: Frame) => if f.Data? then PieceLen(size, f.offset) else 0 }

  ghost function LogLen(size: nat): seq<Frame> -> nat { (log: seq<Frame>) => Tally(log, FrameLen(size)) }

  ghost function OnTheWire(c: Config, s: State): nat { Tally(s.sent, LogLen(|c.file|)) }

  ghost function BytesInPlay(c: Config, s: State): nat {
    (if s.prod.Ready? then s.prod.chunk.len else 0) + Tally(s.queue, ChunkLen()) + Tally(s.workers, HoldLen())
    + OnTheWire(c, s) + (if s.main.DrainHand? then s.main.chunk.len else 0) + Tally(s.lost, ChunkLen())
  }

  // ---- The invariant ----

  /** The chunk's buffer still holds exactly the file's bytes at its offset. */
  ghost predicate ChunkOk(c: Config, s: State, k: Chunk) {
    && OnGrid(k.offset) && k.offset < |c.file| && k.len == PieceLen(|c.file|, k.offset)
    && k.buf in s.bufs && |s.bufs[k.buf]| == CHUNK_SIZE
    && s.bufs[k.buf][..k.len] == PieceAt(c.file, k.offset)
  }

  ghost predicate FrameOk(c: Config, f: Frame) {
    && f.Data? && OnGrid(f.offset) && f.offset < |c.file|
    && f.payload == c.coder.Encode(PieceAt(c.file, f.offset))
  }

  /** Reading stops at the end of the file unless it fails; the result is delivered after the close. */
  ghost predicate ProdPhase(size: nat, s: State) {
    && s.read <= size
    && (s.prod.AtTop? || s.prod.Holding? || (s.prod.Ready? && !s.prod.last) ==> OnGrid(s.read))
    && (s.prod.Ready? && s.prod.last ==> s.read == size)
    && ((s.prod.Closing? || s.prod.Closed?) && !s.prod.failed ==> s.read == size)
    && (s.closed <==> s.prod.Closed? || s.prod.Exited?)
    && (s.prodErr.Some? <==> s.prod.Exited?)
    && (s.prodErr == Some(false) ==> s.read == size)
  }

  /** The coordinator drains only after every worker is gone, and completes only if none failed. */
  ghost predicate MainPhase(s: State) {
    && (!s.main.Waiting? ==> AllExited(s))
    && (s.main.AwaitProducer? || s.main.Flushing? || s.main.Completed? || s.main.CompleteFailed? ==>
          s.closed && s.queue == [])
    && (s.main.Flushing? || s.main.Completed? || s.main.CompleteFailed? ==> s.prodErr == Some(false) && AllOk(s))
  }

  ghost predicate Shape(c: Config, s: State) {
    && c.n > 0 && |c.file| < TWO64
    && |s.workers| == |s.sent| == c.n
    && ProdPhase(|c.file|, s) && MainPhase(s)
  }

  ghost predicate Contents(c: Config, s: State) {
    && (forall b :: b in s.bufs ==> |s.bufs[b]| == CHUNK_SIZE)
    && (s.prod.Holding? ==> s.prod.buf in s.bufs)
    && (s.prod.Ready? ==> ChunkOk(c, s, s.prod.chunk))
    && (forall k :: 0 <= k < |s.queue| ==> ChunkOk(c, s, s.queue[k]))
    && (forall i :: 0 <= i < |s.workers| && (s.workers[i].Hold? || s.workers[i].Sent?) ==> ChunkOk(c, s, s.workers[i].chunk))
    && (s.main.DrainHand? ==> ChunkOk(c, s, s.main.chunk))
    && (forall i, j :: 0 <= i < |s.sent| && 0 <= j < |s.sent[i]| ==> FrameOk(c, s.sent[i][j]))
    && (forall k :: 0 <= k < |s.lost| ==> LostOk(c, s.lost[k]))
  }

  predicate LostOk(c: Config, k: Chunk) { k.offset < |c.file| && k.len == PieceLen(|c.file|, k.offset) }

  /** Every buffer has exactly one owner, and nothing owns a buffer that was never made. */
  ghost predicate OneOwner(s: State) { forall b: nat :: Owners(s, b) == if b in s.bufs then 1 else 0 }

  /** Every chunk cut so far is in exactly one place. */
  ghost predicate OnePlace(s: State) {
    forall o: nat :: Places(s, o) == if OnGrid(o) && o < s.read then 1 else 0
  }

  /** Nothing is lost or left out of the statistics unless a worker failed. */
  ghost predicate LossMeansFailure(s: State) {
    && ((exists i :: 0 <= i < |s.workers| && s.workers[i] == Exit(true)) ==> s.closed && s.queue == [])
    && (s.lost != [] || s.abandoned > 0 || s.main.DrainHand? ==> SomeFailed(s))
  }

  ghost predicate BytesAccounted(c: Config, s: State) {
    && BytesInPlay(c, s) == s.read
    && s.sentBytes + Tally(s.workers, SentLen()) + s.abandoned == OnTheWire(c, s)
  }

  ghost predicate Inv(c: Config, s: State) {
    Shape(c, s) && Contents(c, s) && OneOwner(s) && OnePlace(s) && LossMeansFailure(s) && BytesAccounted(c, s)
  }

  lemma InitInv(c: Config, s: State)
    requires c.n > 0 && |c.file| < TWO64 && Init(c, s)
    ensures Inv(c, s)
  {
    forall b: nat ensures Owners(s, b) == 0 {
      TallyZero(s.workers, c.n, WorkerBuf(b));
    }
    forall o: nat ensures Places(s, o) == 0 {
      TallyZero(s.workers, c.n, WorkerAt(o));
      TallyZero(s.sent, c.n, LogAt(o));
    }
    TallyZero(s.workers, c.n, HoldLen());
    TallyZero(s.workers, c.n, SentLen());
    TallyZero(s.sent, c.n, LogLen(|c.file|));
  }

  // ---- Owners ----

  /** Shorthand for the tallies one worker's or one chunk's move changes. */
  lemma OwnersProducer(c: Config, s: State, e: Event, s': State, b: nat)
    requires ProducerStep(c, s, e, s') && Owners(s, b) == if b in s.bufs then 1 else 0
    ensures Owners(s', b) == Owners(s, b) + if e == ProdGet(b) && b !in s.bufs then 1 else 0
  {
    hide PieceLen, Zeros, Tally;
    if e.ProdPush? { TallyAppend(s.queue, s.prod.chunk, ChunkBuf(b)); }
  }

  lemma OwnersWorker(c: Config, s: State, i: nat, e: Event, s': State, b: nat)
    requires WorkerStep(c, s, i, e, s')
    ensures Owners(s', b) == Owners(s, b)
  {
    TallyUpdate(s.workers, i, s'.workers[i], WorkerBuf(b));
    if e.WorkerPop? { TallyTail(s.queue, ChunkBuf(b)); }
  }

  lemma OwnersMain(s: State, e: Event, s': State, b: nat)
    requires MainStep(s, e, s')
    ensures Owners(s', b) == Owners(s, b)
  {
    if e.DrainPop? { TallyTail(s.queue, ChunkBuf(b)); }
  }

  // ---- Places ----

  lemma PlacesProducer(c: Config, s: State, e: Event, s': State, o: nat)
    requires ProducerStep(c, s, e, s')
    ensures Places(s', o) == Places(s, o) + if s'.read > s.read && o == s.read then 1 else 0
    ensures s'.read > s.read ==> e.ProdRead? && s'.read == s.read + PieceLen(|c.file|, s.read)
    ensures s'.read >= s.read
  {
    hide Zeros, Tally, SentCount;
    if e.ProdPush? { TallyAppend(s.queue, s.prod.chunk, ChunkAt(o)); }
  }

  lemma PlacesWorker(c: Config, s: State, i: nat, e: Event, s': State, o: nat)
    requires WorkerStep(c, s, i, e, s')
    ensures Places(s', o) == Places(s, o) && s'.read == s.read
  {
    hide Tally;
    TallyUpdate(s.workers, i, s'.workers[i], WorkerAt(o));
    if e.WorkerPop? { TallyTail(s.queue, ChunkAt(o)); }
    if e.WorkerSendFail? { TallyAppend(s.lost, s.workers[i].chunk, ChunkAt(o)); }
    if e.WorkerSend? {
      var f := FrameFor(c, s, s.workers[i].chunk);
      TallyAppend(s.sent[i], f, FrameAt(o));
      TallyUpdate(s.sent, i, s.sent[i] + [f], LogAt(o));
    }
  }

  lemma PlacesMain(s: State, e: Event, s': State, o: nat)
    requires MainStep(s, e, s')
    ensures Places(s', o) == Places(s, o) && s'.read == s.read
  {
    hide Tally, SentCount;
    if e.DrainPop? { TallyTail(s.queue, ChunkAt(o)); }
    if e.DrainRelease? { TallyAppend(s.lost, s.main.chunk, ChunkAt(o)); }
  }

  /** Between one piece's start and its end there is no other start. */
  lemma GridStep(size: nat, read: nat, o: nat)
    requires OnGrid(read) && read < size
    ensures OnGrid(o) && o < read + PieceLen(size, read) <==> (OnGrid(o) && o < read) || o == read
  {
  }

  // ---- Bytes ----

  lemma BytesProducer(c: Config, s: State, e: Event, s': State)
    requires ProducerStep(c, s, e, s')
    ensures BytesInPlay(c, s') - s'.read == BytesInPlay(c, s) - s.read
    ensures OnTheWire(c, s') == OnTheWire(c, s) && s'.workers == s.workers
  {
    hide Zeros, Tally;
    if e.ProdPush? { TallyAppend(s.queue, s.prod.chunk, ChunkLen()); }
  }

  lemma BytesWorker(c: Config, s: State, i: nat, e: Event, s': State)
    requires WorkerStep(c, s, i, e, s')
    requires s.workers[i].Hold? ==> s.workers[i].chunk.len == PieceLen(|c.file|, s.workers[i].chunk.offset)
    ensures BytesInPlay(c, s') == BytesInPlay(c, s) && s'.read == s.read
    ensures s'.sentBytes + Tally(s'.workers, SentLen()) + s'.abandoned - OnTheWire(c, s')
         == s.sentBytes + Tally(s.workers, SentLen()) + s.abandoned - OnTheWire(c, s)
  {
    hide Tally, PieceLen;
    TallyUpdate(s.workers, i, s'.workers[i], HoldLen());
    TallyUpdate(s.workers, i, s'.workers[i], SentLen());
    if e.WorkerPop? { TallyTail(s.queue, ChunkLen()); }
    if e.WorkerSendFail? { TallyAppend(s.lost, s.workers[i].chunk, ChunkLen()); }
    if e.WorkerSend? {
      var f := FrameFor(c, s, s.workers[i].chunk);
      TallyAppend(s.sent[i], f, FrameLen(|c.file|));
      TallyUpdate(s.sent, i, s.sent[i] + [f], LogLen(|c.file|));
    }
  }

  lemma BytesMain(c: Config, s: State, e: Event, s': State)
    requires MainStep(s, e, s')
    ensures BytesInPlay(c, s') == BytesInPlay(c, s) && s'.read == s.read
    ensures OnTheWire(c, s') == OnTheWire(c, s) && s'.workers == s.workers
    ensures s'.sentBytes == s.sentBytes && s'.abandoned == s.abandoned
  {
    hide Tally;
    if e.DrainPop? { TallyTail(s.queue, ChunkLen()); }
    if e.DrainRelease? { TallyAppend(s.lost, s.main.chunk, ChunkLen()); }
  }

  // ---- Contents ----

  /** The buffer the producer holds is in no chunk that anyone else holds. */
  lemma NotElsewhere(s: State, b: nat)
    requires Owners(s, b) <= 1 && ProdBuf(s.prod, b) == 1
    ensures forall k :: 0 <= k < |s.queue| ==> s.queue[k].buf != b
    ensures forall i :: 0 <= i < |s.workers| && (s.workers[i].Hold? || s.workers[i].Sent?) ==> s.workers[i].chunk.buf != b
    ensures s.main.DrainHand? ==> s.main.chunk.buf != b
  {
    forall k | 0 <= k < |s.queue| ensures s.queue[k].buf != b {
      TallyAtLeast(s.queue, |s.queue|, k, ChunkBuf(b));
    }
    forall i | 0 <= i < |s.workers| && (s.workers[i].Hold? || s.workers[i].Sent?) ensures s.workers[i].chunk.buf != b {
      TallyAtLeast(s.workers, |s.workers|, i, WorkerBuf(b));
    }
  }

  /** Contents is kept by a step that changes at most one buffer, which no other chunk uses. */
  lemma ContentsProducer(c: Config, s: State, e: Event, s': State)
    requires Shape(c, s) && Contents(c, s) && OneOwner(s) && ProducerStep(c, s, e, s')
    ensures Contents(c, s')
  {
    hide Owners, FrameOk, Shape, ProducerStep;
    var b := Touched(s, e);
    ProducerTouches(c, s, e, s', b);
    if ProdBuf(s.prod, b) == 1 {
      assert Owners(s, b) <= 1;
      NotElsewhere(s, b);
    }
    if s'.prod.Ready? { NewChunkOk(c, s, e, s'); }
    forall k | 0 <= k < |s'.queue| ensures ChunkOk(c, s', s'.queue[k]) {
      if k < |s.queue| {
        assert s'.queue[k] == s.queue[k];
        assert ChunkOk(c, s, s.queue[k]);
      }
    }
    forall i | 0 <= i < |s'.workers| && (s'.workers[i].Hold? || s'.workers[i].Sent?)
      ensures ChunkOk(c, s', s'.workers[i].chunk)
    {
      assert ChunkOk(c, s, s.workers[i].chunk);
    }
    forall i, j | 0 <= i < |s'.sent| && 0 <= j < |s'.sent[i]| ensures FrameOk(c, s'.sent[i][j]) {
      assert FrameOk(c, s.sent[i][j]);
    }
    forall k | 0 <= k < |s'.lost| ensures LostOk(c, s'.lost[k]) {
      assert LostOk(c, s.lost[k]);
    }
  }

  /** The one buffer a producer step may change. */
  ghost function Touched(s: State, e: Event): nat {
    if e.ProdGet? then e.b else if s.prod.Holding? then s.prod.buf else 0
  }

  lemma ProducerTouches(c: Config, s: State, e: Event, s': State, b: nat)
    requires Contents(c, s) && ProducerStep(c, s, e, s') && b == Touched(s, e)
    ensures s'.workers == s.workers && s'.sent == s.sent && s'.main == s.main && s'.lost == s.lost
    ensures s'.queue == s.queue || (s.prod.Ready? && s'.queue == s.queue + [s.prod.chunk])
    ensures forall k :: k in s.bufs ==> k in s'.bufs && ((k == b && ProdBuf(s.prod, b) == 1) || s'.bufs[k] == s.bufs[k])
    ensures forall k :: k in s'.bufs ==> |s'.bufs[k]| == CHUNK_SIZE
    ensures s'.prod.Holding? ==> s'.prod.buf in s'.bufs
    ensures s.prod.Ready? ==> s'.bufs == s.bufs
  {
    hide ChunkOk, FrameOk;
  }

  lemma NewChunkOk(c: Config, s: State, e: Event, s': State)
    requires Shape(c, s) && Contents(c, s) && ProducerStep(c, s, e, s') && s'.prod.Ready?
    ensures ChunkOk(c, s', s'.prod.chunk)
  {
    hide FrameOk;
    var b, n := s.prod.buf, PieceLen(|c.file|, s.read);
    assert s'.bufs[b][..n] == c.file[s.read..s.read + n];
  }

  /** A chunk is what its buffer holds. */
  lemma ChunkSame(c: Config, s: State, s': State, k: Chunk)
    requires ChunkOk(c, s, k) && s'.bufs == s.bufs
    ensures ChunkOk(c, s', k)
  {
  }

  /** What a chunk becomes on the wire, or when it is lost. */
  lemma ChunkMeans(c: Config, s: State, k: Chunk)
    requires ChunkOk(c, s, k)
    ensures LostOk(c, k)
    ensures k.buf in s.bufs && k.len <= |s.bufs[k.buf]|
    ensures k.offset < TWO64 ==> FrameOk(c, FrameFor(c, s, k))
  {
  }

  lemma ContentsWorker(c: Config, s: State, i: nat, e: Event, s': State)
    requires Contents(c, s) && WorkerStep(c, s, i, e, s')
    ensures Contents(c, s')
  {
    hide ChunkOk, FrameOk, LostOk, FrameFor;
    WorkerChunks(c, s, i, e, s');
    WorkerFrames(c, s, i, e, s');
    WorkerLosses(c, s, i, e, s');
    if s.prod.Ready? { ChunkSame(c, s, s', s.prod.chunk); }
    if s.main.DrainHand? { ChunkSame(c, s, s', s.main.chunk); }
  }

  lemma WorkerChunks(c: Config, s: State, i: nat, e: Event, s': State)
    requires Contents(c, s) && WorkerStep(c, s, i, e, s')
    ensures forall k :: 0 <= k < |s'.queue| ==> ChunkOk(c, s', s'.queue[k])
    ensures forall j :: 0 <= j < |s'.workers| && (s'.workers[j].Hold? || s'.workers[j].Sent?) ==>
              ChunkOk(c, s', s'.workers[j].chunk)
  {
    hide ChunkOk, FrameOk, LostOk, FrameFor;
    forall k | 0 <= k < |s'.queue| ensures ChunkOk(c, s', s'.queue[k]) {
      ChunkSame(c, s, s', s.queue[if e.WorkerPop? then k + 1 else k]);
    }
    forall j | 0 <= j < |s'.workers| && (s'.workers[j].Hold? || s'.workers[j].Sent?)
      ensures ChunkOk(c, s', s'.workers[j].chunk)
    {
      ChunkSame(c, s, s', if j == i && e.WorkerPop? then s.queue[0] else s.workers[j].chunk);
    }
  }

  lemma WorkerFrames(c: Config, s: State, i: nat, e: Event, s': State)
    requires Contents(c, s) && WorkerStep(c, s, i, e, s')
    ensures forall a, j :: 0 <= a < |s'.sent| && 0 <= j < |s'.sent[a]| ==> FrameOk(c, s'.sent[a][j])
  {
    hide ChunkOk, FrameOk, LostOk, FrameFor;
    if e.WorkerSend? { ChunkMeans(c, s, s.workers[i].chunk); }
    forall a, j | 0 <= a < |s'.sent| && 0 <= j < |s'.sent[a]| ensures FrameOk(c, s'.sent[a][j]) {
      if j < |s.sent[a]| {
        assert s'.sent[a][j] == s.sent[a][j];
      }
    }
  }

  lemma WorkerLosses(c: Config, s: State, i: nat, e: Event, s': State)
    requires Contents(c, s) && WorkerStep(c, s, i, e, s')
    ensures forall k :: 0 <= k < |s'.lost| ==> LostOk(c, s'.lost[k])
  {
    hide ChunkOk, FrameOk, LostOk, FrameFor;
    if e.WorkerSendFail? { ChunkMeans(c, s, s.workers[i].chunk); }
  }

  lemma ContentsMain(c: Config, s: State, e: Event, s': State)
    requires Contents(c, s) && MainStep(s, e, s')
    ensures Contents(c, s')
  {
    hide FrameOk;
    forall k | 0 <= k < |s'.queue| ensures ChunkOk(c, s', s'.queue[k]) {
      if e.DrainPop? { assert ChunkOk(c, s, s.queue[k + 1]); } else { assert ChunkOk(c, s, s.queue[k]); }
    }
    forall i | 0 <= i < |s'.workers| && (s'.workers[i].Hold? || s'.workers[i].Sent?)
      ensures ChunkOk(c, s', s'.workers[i].chunk)
    {
      assert ChunkOk(c, s, s.workers[i].chunk);
    }
    if e.DrainPop? { assert ChunkOk(c, s, s.queue[0]); }
    forall i, j | 0 <= i < |s'.sent| && 0 <= j < |s'.sent[i]| ensures FrameOk(c, s'.sent[i][j]) {
      assert FrameOk(c, s.sent[i][j]);
    }
    forall k | 0 <= k < |s'.lost| ensures LostOk(c, s'.lost[k]) {
      if k < |s.lost| { assert LostOk(c, s.lost[k]); }
    }
  }

  // ---- Shape and losses ----

  lemma ShapeProducer(c: Config, s: State, e: Event, s': State)
    requires Shape(c, s) && ProducerStep(c, s, e, s')
    ensures Shape(c, s')
  {
    hide Zeros, ProdPhase, MainPhase;
    ProdPhaseKept(c, s, e, s');
    MainPhaseKept(c, s, e, s');
  }

  lemma ProdPhaseKept(c: Config, s: State, e: Event, s': State)
    requires ProdPhase(|c.file|, s) && ProducerStep(c, s, e, s')
    ensures ProdPhase(|c.file|, s')
  {
    hide Zeros;
  }

  lemma MainPhaseKept(c: Config, s: State, e: Event, s': State)
    requires ProdPhase(|c.file|, s) && MainPhase(s) && ProducerStep(c, s, e, s')
    ensures MainPhase(s')
  {
    hide Zeros, AllExited, AllOk, PieceLen;
    AllExitedSame(s, s');
  }

  lemma AllExitedSame(s: State, s': State)
    ensures s'.workers == s.workers ==> AllExited(s') == AllExited(s) && AllOk(s') == AllOk(s)
  {
  }

  lemma ShapeWorker(c: Config, s: State, i: nat, e: Event, s': State)
    requires Shape(c, s) && WorkerStep(c, s, i, e, s')
    ensures Shape(c, s') && !s.workers[i].Exit? && s.main.Waiting?
  {
    hide AllOk;
    assert !s.workers[i].Exit?;
    assert !AllExited(s);
  }

  lemma ShapeMain(c: Config, s: State, e: Event, s': State)
    requires Shape(c, s) && MainStep(s, e, s')
    ensures Shape(c, s')
  {
    hide AllExited, AllOk;
    AllExitedSame(s, s');
  }

  lemma StillFailed(s: State, s': State)
    requires SomeFailed(s) && |s'.workers| == |s.workers|
    requires forall i :: 0 <= i < |s.workers| && s.workers[i].Exit? ==> s'.workers[i] == s.workers[i]
    ensures SomeFailed(s')
  {
    var j :| 0 <= j < |s.workers| && s.workers[j] == Exit(false);
    assert s'.workers[j] == Exit(false);
  }

  lemma LossProducer(c: Config, s: State, e: Event, s': State)
    requires Shape(c, s) && LossMeansFailure(s) && ProducerStep(c, s, e, s')
    ensures LossMeansFailure(s')
  {
    hide Zeros, PieceLen, AllExited, AllOk;
    if SomeFailed(s) { StillFailed(s, s'); }
  }

  lemma LossWorker(c: Config, s: State, i: nat, e: Event, s': State)
    requires Shape(c, s) && LossMeansFailure(s) && WorkerStep(c, s, i, e, s')
    ensures LossMeansFailure(s')
  {
    ShapeWorker(c, s, i, e, s');
    hide Shape, FrameFor;
    if SomeFailed(s) { StillFailed(s, s'); }
    if e.WorkerSendFail? || e.WorkerAbandon? { assert s'.workers[i] == Exit(false); }
    forall j | 0 <= j < |s'.workers| && s'.workers[j] == Exit(true) ensures s'.closed && s'.queue == [] {
      if j != i { assert s.workers[j] == Exit(true); }
    }
  }

  lemma LossMain(c: Config, s: State, e: Event, s': State)
    requires Shape(c, s) && LossMeansFailure(s) && MainStep(s, e, s')
    ensures LossMeansFailure(s')
  {
    if SomeFailed(s) { StillFailed(s, s'); }
    if e.DrainPop? {
      assert s.workers[0].Exit?;
      assert s.workers[0] == Exit(false);
      StillFailed(s, s');
    }
  }

  // ---- All together ----

  /** Every step of every routine keeps the invariant. */
  lemma StepKeepsInv(c: Config, s: State, e: Event, s': State)
    requires Inv(c, s) && Step(c, s, e, s')
    ensures Inv(c, s')
  {
    hide Shape, LossMeansFailure, Owners, Places, BytesInPlay, OnTheWire, ChunkOk, FrameOk, Tally;
    if ProducerStep(c, s, e, s') {
      ShapeProducer(c, s, e, s');
      LossProducer(c, s, e, s');
      KeepProducer(c, s, e, s');
    } else if WorkerStep(c, s, Actor(e, |s.workers|), e, s') {
      ShapeWorker(c, s, Actor(e, |s.workers|), e, s');
      LossWorker(c, s, Actor(e, |s.workers|), e, s');
      KeepWorker(c, s, Actor(e, |s.workers|), e, s');
    } else {
      ShapeMain(c, s, e, s');
      LossMain(c, s, e, s');
      KeepMain(c, s, e, s');
    }
  }

  lemma KeepProducer(c: Config, s: State, e: Event, s': State)
    requires Inv(c, s) && ProducerStep(c, s, e, s')
    ensures Contents(c, s') && OneOwner(s') && OnePlace(s') && BytesAccounted(c, s')
  {
    hide LossMeansFailure, Owners, Places, BytesInPlay, OnTheWire, ChunkOk, FrameOk, Tally, Contents;
    ContentsProducer(c, s, e, s');
    BytesProducer(c, s, e, s');
    forall b: nat ensures Owners(s', b) == if b in s'.bufs then 1 else 0 {
      assert Owners(s, b) == if b in s.bufs then 1 else 0;
      OwnersProducer(c, s, e, s', b);
      BufsGrow(c, s, e, s', b);
    }
    forall o: nat ensures Places(s', o) == if OnGrid(o) && o < s'.read then 1 else 0 {
      assert Places(s, o) == if OnGrid(o) && o < s.read then 1 else 0;
      PlacesProducer(c, s, e, s', o);
      if s'.read > s.read { GridStep(|c.file|, s.read, o); }
    }
  }

  lemma BufsGrow(c: Config, s: State, e: Event, s': State, b: nat)
    requires Contents(c, s) && ProducerStep(c, s, e, s')
    ensures b in s'.bufs <==> b in s.bufs || e == ProdGet(b)
  {
  }

  lemma KeepWorker(c: Config, s: State, i: nat, e: Event, s': State)
    requires Inv(c, s) && WorkerStep(c, s, i, e, s')
    ensures Contents(c, s') && OneOwner(s') && OnePlace(s') && BytesAccounted(c, s')
  {
    hide Shape, LossMeansFailure, Owners, Places, BytesInPlay, OnTheWire, FrameOk, Tally;
    ContentsWorker(c, s, i, e, s');
    BytesWorker(c, s, i, e, s');
    forall b: nat ensures Owners(s', b) == if b in s'.bufs then 1 else 0 {
      assert Owners(s, b) == if b in s.bufs then 1 else 0;
      OwnersWorker(c, s, i, e, s', b);
    }
    forall o: nat ensures Places(s', o) == if OnGrid(o) && o < s'.read then 1 else 0 {
      assert Places(s, o) == if OnGrid(o) && o < s.read then 1 else 0;
      PlacesWorker(c, s, i, e, s', o);
    }
  }

  lemma KeepMain(c: Config, s: State, e: Event, s': State)
    requires Inv(c, s) && MainStep(s, e, s')
    ensures Contents(c, s') && OneOwner(s') && OnePlace(s') && BytesAccounted(c, s')
  {
    hide Shape, LossMeansFailure, Owners, Places, BytesInPlay, OnTheWire, FrameOk, Tally;
    ContentsMain(c, s, e, s');
    BytesMain(c, s, e, s');
    forall b: nat ensures Owners(s', b) == if b in s'.bufs then 1 else 0 {
      assert Owners(s, b) == if b in s.bufs then 1 else 0;
      OwnersMain(s, e, s', b);
    }
    forall o: nat ensures Places(s', o) == if OnGrid(o) && o < s'.read then 1 else 0 {
      assert Places(s, o) == if OnGrid(o) && o < s.read then 1 else 0;
      PlacesMain(s, e, s', o);
    }
  }
}
