/** Results over every run of the striping pipeline. */
module PipelineTheorems {
  import opened Bytes
  import opened Frames
  import opened Pieces
  import opened Coders
  import opened Tallies
  import opened Pipeline
  import opened PipelineProofs

  ghost predicate Next(c: Config, s: State, s': State) { exists e :: Step(c, s, e, s') }

  /** A run from the initial state, by any interleaving of the routines and of failures. */
  ghost predicate IsRun(c: Config, run: seq<State>) {
    && run != [] && c.n > 0 && |c.file| < TWO64 && Init(c, run[0])
    && forall k :: 0 <= k < |run| - 1 ==> Next(c, run[k], run[k + 1])
  }

  lemma {:induction false} RunKeepsInv(c: Config, run: seq<State>, k: nat)
    requires IsRun(c, run) && k < |run|
    ensures Inv(c, run[k])
  {
    if k == 0 {
      InitInv(c, run[0]);
    } else {
      RunKeepsInv(c, run, k - 1);
      assert Next(c, run[k - 1], run[k - 1 + 1]);
      var e :| Step(c, run[k - 1], e, run[k]);
      StepKeepsInv(c, run[k - 1], e, run[k]);
    }
  }

  // ---- One owner per buffer ----

  /** Where a buffer can be. */
  datatype Owner = Pool | Prod | Queue(k: nat) | Hand(i: nat) | Drain

  ghost predicate Owns(s: State, w: Owner, b: nat) {
    match w
    case Pool => b in s.pool
    case Prod => (s.prod.Holding? && s.prod.buf == b) || (s.prod.Ready? && s.prod.chunk.buf == b)
    case Queue(k) => k < |s.queue| && s.queue[k].buf == b
    case Hand(i) => i < |s.workers| && (s.workers[i].Hold? || s.workers[i].Sent?) && s.workers[i].chunk.buf == b
    case Drain => s.main.DrainHand? && s.main.chunk.buf == b
  }

  /** In every reachable state every buffer ever made has exactly one owner and is in the pool at most once. */
  lemma BufferHasOneOwner(c: Config, run: seq<State>, t: nat, b: nat)
    requires IsRun(c, run) && t < |run| && b in run[t].bufs
    ensures run[t].pool[b] <= 1
    ensures exists w :: Owns(run[t], w, b)
    ensures forall v, w :: Owns(run[t], v, b) && Owns(run[t], w, b) ==> v == w
  {
    var s := run[t];
    RunKeepsInv(c, run, t);
    assert Owners(s, b) == 1;
    hide Inv;
    forall v, w | Owns(s, v, b) && Owns(s, w, b) ensures v == w {
      TwoOwners(s, v, w, b);
    }
    SomeOwner(s, b);
  }

  lemma TwoOwners(s: State, v: Owner, w: Owner, b: nat)
    requires Owns(s, v, b) && Owns(s, w, b) && Owners(s, b) == 1
    ensures v == w
  {
    match v {
      case Queue(k) =>
        TallyAtLeast(s.queue, |s.queue|, k, ChunkBuf(b));
        if w.Queue? && w.k != k {
          TallyPair(s.queue, |s.queue|, if k < w.k then k else w.k, if k < w.k then w.k else k, ChunkBuf(b));
        }
      case Hand(i) =>
        TallyAtLeast(s.workers, |s.workers|, i, WorkerBuf(b));
        if w.Hand? && w.i != i {
          TallyPair(s.workers, |s.workers|, if i < w.i then i else w.i, if i < w.i then w.i else i, WorkerBuf(b));
        }
      case _ =>
    }
    if w.Queue? { TallyAtLeast(s.queue, |s.queue|, w.k, ChunkBuf(b)); }
    if w.Hand? { TallyAtLeast(s.workers, |s.workers|, w.i, WorkerBuf(b)); }
  }

  lemma SomeOwner(s: State, b: nat)
    requires Owners(s, b) == 1
    ensures exists w :: Owns(s, w, b)
  {
    if b in s.pool {
      assert Owns(s, Pool, b);
    } else if ProdBuf(s.prod, b) > 0 {
      assert Owns(s, Prod, b);
    } else if MainBuf(s.main, b) > 0 {
      assert Owns(s, Drain, b);
    } else if Tally(s.queue, ChunkBuf(b)) > 0 {
      var k := TallySome(s.queue, |s.queue|, ChunkBuf(b));
      assert Owns(s, Queue(k), b);
    } else {
      var i := TallySome(s.workers, |s.workers|, WorkerBuf(b));
      assert Owns(s, Hand(i), b);
    }
  }

  /** Every frame ever sent, on any peer, carries the file's own bytes at its offset. */
  lemma SentFramesAreTheFile(c: Config, run: seq<State>, t: nat, i: nat, j: nat)
    requires IsRun(c, run) && t < |run| && i < |run[t].sent| && j < |run[t].sent[i]|
    ensures var f := run[t].sent[i][j];
            && f.Data? && f.offset < |c.file| && OnGrid(f.offset)
            && f.payload == c.coder.Encode(c.file[f.offset..f.offset + PieceLen(|c.file|, f.offset)])
  {
    RunKeepsInv(c, run, t);
    assert FrameOk(c, run[t].sent[i][j]);
  }

  // ---- Truthful completion ----

  lemma PlacesBound(c: Config, s: State, o: nat)
    requires Inv(c, s)
    ensures SentCount(s.sent, o) <= 1
  {
    assert Places(s, o) <= 1;
  }

  /** No chunk is sent twice, on the same peer or on two. */
  lemma ChunkSentOnce(c: Config, run: seq<State>, t: nat, i: nat, a: nat, j: nat, b: nat)
    requires IsRun(c, run) && t < |run|
    requires i < |run[t].sent| && a < |run[t].sent[i]| && j < |run[t].sent| && b < |run[t].sent[j]|
    requires run[t].sent[i][a].Data? && run[t].sent[j][b].Data?
    requires run[t].sent[i][a].offset == run[t].sent[j][b].offset
    ensures i == j && a == b
  {
    var s := run[t];
    RunKeepsInv(c, run, t);
    SentDistinct(c, s, i, a, j, b);
  }

  lemma SentDistinct(c: Config, s: State, i: nat, a: nat, j: nat, b: nat)
    requires Inv(c, s)
    requires i < |s.sent| && a < |s.sent[i]| && j < |s.sent| && b < |s.sent[j]|
    requires s.sent[i][a].Data? && s.sent[j][b].Data? && s.sent[i][a].offset == s.sent[j][b].offset
    ensures i == j && a == b
  {
    var o := s.sent[i][a].offset;
    PlacesBound(c, s, o);
    hide Inv;
    TallyAtLeast(s.sent[i], |s.sent[i]|, a, FrameAt(o));
    TallyAtLeast(s.sent[j], |s.sent[j]|, b, FrameAt(o));
    if i < j {
      TallyPair(s.sent, |s.sent|, i, j, LogAt(o));
    } else if j < i {
      TallyPair(s.sent, |s.sent|, j, i, LogAt(o));
    } else {
      TallyAtLeast(s.sent, |s.sent|, i, LogAt(o));
      if a < b {
        TallyPair(s.sent[i], |s.sent[i]|, a, b, FrameAt(o));
      } else if b < a {
        TallyPair(s.sent[i], |s.sent[i]|, b, a, FrameAt(o));
      }
    }
  }

  /** What TRANSFER_COMPLETE promises. */
  ghost predicate Truthful(c: Config, s: State) {
    && s.read == |c.file|                                   // the whole file was read
    && s.lost == []                                         // nothing was dropped, by a worker or the drain loop
    && s.sentBytes == |c.file|
    && s.prodErr == Some(false) && AllOk(s)
    && forall o: nat :: SentCount(s.sent, o) == if OnGrid(o) && o < |c.file| then 1 else 0
  }

  lemma InvTruthful(c: Config, s: State)
    requires Inv(c, s) && (s.main.Flushing? || s.main.Completed? || s.main.CompleteFailed?)
    ensures Truthful(c, s)
  {
    assert s.workers[0] == Exit(true);
    assert !SomeFailed(s);
    assert s.lost == [] && s.abandoned == 0 && s.queue == [] && !s.main.DrainHand? && !s.prod.Ready?;
    forall o: nat ensures SentCount(s.sent, o) == if OnGrid(o) && o < |c.file| then 1 else 0 {
      assert Places(s, o) == if OnGrid(o) && o < s.read then 1 else 0;
      TallyZero(s.workers, |s.workers|, WorkerAt(o));
    }
    TallyZero(s.workers, |s.workers|, HoldLen());
    TallyZero(s.workers, |s.workers|, SentLen());
  }

  /** TRANSFER_COMPLETE is sent only when every chunk of the whole file was sent exactly once. */
  lemma CompleteIsTruthful(c: Config, run: seq<State>, t: nat)
    requires IsRun(c, run) && t < |run| && run[t].main.Completed?
    ensures Truthful(c, run[t])
  {
    RunKeepsInv(c, run, t);
    InvTruthful(c, run[t]);
  }

  // ---- No deadlock ----

  predicate Ended(m: Main) { m.Completed? || m.CompleteFailed? || m.Aborted? }

  ghost predicate CanMove(c: Config, s: State) { exists e, s' :: Step(c, s, e, s') && !IsFault(e) }

  lemma ProducerMoves(c: Config, s: State)
    requires Inv(c, s) && !s.prod.Exited? && |s.queue| < 2 * c.n
    ensures CanMove(c, s)
  {
    hide OneOwner, OnePlace, BytesAccounted, LossMeansFailure, ChunkOk, FrameOk;
    match s.prod {
      case AtTop =>
        var b := FreshBuffer(s.bufs);
        var s' := s.(prod := Holding(b), pool := s.pool - multiset{b}, bufs := s.bufs[b := Zeros()]);
        assert Step(c, s, ProdGet(b), s');
      case Holding(b) =>
        var n := PieceLen(|c.file|, s.read);
        var s' := if n == 0 then s.(prod := Closing(false), pool := s.pool + multiset{b})
                  else s.(prod := Ready(Chunk(s.read, n, b), n < CHUNK_SIZE), read := s.read + n,
                          bufs := s.bufs[b := c.file[s.read..s.read + n] + s.bufs[b][n..]]);
        assert Step(c, s, ProdRead, s');
      case Ready(k, last) =>
        var s' := s.(queue := s.queue + [k], prod := if last then Closing(false) else AtTop);
        assert Step(c, s, ProdPush, s');
      case Closing(f) =>
        var s' := s.(prod := Closed(f), closed := true);
        assert Step(c, s, ProdClose, s');
      case Closed(f) =>
        var s' := s.(prod := Exited, prodErr := Some(f));
        assert Step(c, s, ProdExit, s');
    }
  }

  lemma FreshBuffer(bufs: map<nat, bytes>) returns (b: nat)
    ensures b !in bufs
  {
    var rest := bufs.Keys;
    b := 0;
    while b in bufs
      invariant rest <= bufs.Keys && forall k: nat :: k in bufs && k >= b ==> k in rest
      decreases rest
    {
      rest := rest - {b};
      b := b + 1;
    }
  }

  lemma HolderSends(c: Config, s: State, i: nat)
    requires Inv(c, s) && i < |s.workers| && s.workers[i].Hold?
    ensures CanMove(c, s)
  {
    hide OneOwner, OnePlace, BytesAccounted, LossMeansFailure, FrameOk, ProdPhase, MainPhase;
    var k := s.workers[i].chunk;
    assert ChunkOk(c, s, k);
    assert Step(c, s, WorkerSend(i), s.(workers := s.workers[i := Sent(k)],
                                        sent := s.sent[i := s.sent[i] + [FrameFor(c, s, k)]]));
  }

  lemma WorkerMoves(c: Config, s: State, i: nat)
    requires Inv(c, s) && i < |s.workers| && !s.workers[i].Exit? && (s.workers[i].Idle? ==> s.queue != [] || s.closed)
    ensures CanMove(c, s)
  {
    hide OneOwner, OnePlace, BytesAccounted, LossMeansFailure, FrameOk, ProdPhase, MainPhase;
    match s.workers[i] {
      case Starting =>
        assert Step(c, s, WorkerStart(i), s.(workers := s.workers[i := Idle]));
      case Idle =>
        if s.queue != [] {
          assert Step(c, s, WorkerPop(i), s.(queue := s.queue[1..], workers := s.workers[i := Hold(s.queue[0])]));
        } else {
          assert Step(c, s, WorkerEnd(i), s.(workers := s.workers[i := Exit(true)]));
        }
      case Hold(k) =>
        HolderSends(c, s, i);
      case Sent(k) =>
        assert Step(c, s, WorkerDone(i), s.(workers := s.workers[i := Idle], pool := s.pool + multiset{k.buf},
                                            sentBytes := s.sentBytes + k.len));
    }
  }

  lemma MainMoves(c: Config, s: State)
    requires Inv(c, s) && !Ended(s.main)
    requires s.main.Waiting? ==> AllExited(s)
    requires s.main.Draining? ==> s.queue != [] || s.closed
    requires s.main.AwaitProducer? ==> s.prodErr.Some?
    ensures CanMove(c, s)
  {
    hide Inv;
    match s.main {
      case Waiting => assert Step(c, s, MainWait, s.(main := Draining));
      case Draining =>
        if s.queue != [] {
          assert Step(c, s, DrainPop, s.(main := DrainHand(s.queue[0]), queue := s.queue[1..]));
        } else {
          assert Step(c, s, DrainEnd, s.(main := AwaitProducer));
        }
      case DrainHand(k) =>
        assert Step(c, s, DrainRelease, s.(main := Draining, pool := s.pool + multiset{k.buf}, lost := s.lost + [k]));
      case AwaitProducer =>
        assert Step(c, s, MainRead, s.(main := if s.prodErr.value || !AllOk(s) then Aborted else Flushing));
      case Flushing => assert Step(c, s, MainComplete(true), s.(main := Completed));
    }
  }

  lemma InvMoves(c: Config, s: State)
    requires Inv(c, s) && !Ended(s.main)
    ensures CanMove(c, s)
  {
    if s.main.Waiting? && !AllExited(s) {
      var i :| 0 <= i < |s.workers| && !s.workers[i].Exit?;
      if s.workers[i].Idle? && s.queue == [] && !s.closed {
        ProducerMoves(c, s);
      } else {
        WorkerMoves(c, s, i);
      }
    } else if (s.main.Draining? && s.queue == [] && !s.closed) || (s.main.AwaitProducer? && s.prodErr.None?) {
      ProducerMoves(c, s);
    } else {
      MainMoves(c, s);
    }
  }

  /** Whatever failed or was cancelled, some routine can take an ordinary step until the transfer has ended. */
  lemma NoDeadlock(c: Config, run: seq<State>, t: nat)
    requires IsRun(c, run) && t < |run| && !Ended(run[t].main)
    ensures CanMove(c, run[t])
  {
    RunKeepsInv(c, run, t);
    InvMoves(c, run[t]);
  }

  // ---- Termination ----

  function PiecesLeft(size: nat, offset: nat): nat
    decreases size - offset
  {
    if offset >= size then 0 else 1 + PiecesLeft(size, offset + PieceLen(size, offset))
  }

  function ProdWork(p: Producer, left: nat): nat {
    match p
    case AtTop => 10 * left + 4
    case Holding(_) => 10 * left + 3
    case Ready(_, _) => 10 * left + 12
    case Closing(_) => 2
    case Closed(_) => 1
    case Exited => 0
  }

  ghost function WorkerWork(): Worker -> nat {
    (w: Worker) => match w
      case Starting => 2 case Idle => 1 case Hold(_) => 5 case Sent(_) => 3 case Exit(_) => 0
  }

  function MainWork(m: Main): nat {
    match m
    case Waiting => 6 case Draining => 5 case DrainHand(_) => 9 case AwaitProducer => 4 case Flushing => 3
    case _ => 0
  }

  /** Work left: unread bytes, queued and held chunks, live workers, the coordinator, a possible cancel. */
  ghost function Work(c: Config, s: State): nat {
    ProdWork(s.prod, PiecesLeft(|c.file|, s.read)) + 5 * |s.queue| + Tally(s.workers, WorkerWork())
    + MainWork(s.main) + (if s.cancelled then 0 else 1)
  }

  /** Every step, ordinary or failing, leaves less work. */
  lemma StepDecreasesWork(c: Config, s: State, e: Event, s': State)
    requires Step(c, s, e, s')
    ensures Work(c, s') < Work(c, s)
  {
    hide Tally;
    if ProducerStep(c, s, e, s') {
      WorkProducer(c, s, e, s');
    } else if WorkerStep(c, s, Actor(e, |s.workers|), e, s') {
      TallyUpdate(s.workers, Actor(e, |s.workers|), s'.workers[Actor(e, |s.workers|)], WorkerWork());
    }
  }

  lemma WorkProducer(c: Config, s: State, e: Event, s': State)
    requires ProducerStep(c, s, e, s')
    ensures Work(c, s') < Work(c, s)
  {
    hide Tally, Zeros;
  }

  /** A run is no longer than the work it starts with. */
  lemma {:induction false} RunIsShort(c: Config, run: seq<State>, k: nat)
    requires IsRun(c, run) && k < |run|
    ensures k + Work(c, run[k]) <= Work(c, run[0])
  {
    if k > 0 {
      RunIsShort(c, run, k - 1);
      assert Next(c, run[k - 1], run[k - 1 + 1]);
      var e :| Step(c, run[k - 1], e, run[k]);
      StepDecreasesWork(c, run[k - 1], e, run[k]);
    }
  }

  lemma {:induction false} TallyConstant(s: seq<Worker>, n: nat)
    requires n <= |s| && forall i :: 0 <= i < n ==> s[i] == Starting
    ensures TallyTo(s, n, WorkerWork()) == 2 * n
  {
    if n > 0 {
      TallyConstant(s, n - 1);
    }
  }

  /**
   * Every run stops: after at most ten steps a piece and two a worker, plus eleven. A run that cannot
   * be continued by an ordinary step has ended, with TRANSFER_COMPLETE, its failure, or an abort.
   */
  lemma EveryRunEnds(c: Config, run: seq<State>)
    requires IsRun(c, run)
    ensures |run| <= 10 * PiecesLeft(|c.file|, 0) + 2 * c.n + 12
    ensures !CanMove(c, run[|run| - 1]) ==> Ended(run[|run| - 1].main)
  {
    RunIsShort(c, run, |run| - 1);
    TallyConstant(run[0].workers, c.n);
    if !Ended(run[|run| - 1].main) {
      NoDeadlock(c, run, |run| - 1);
    }
  }

  // ---- What makes a transfer fail ----

  /** The k-th step of a run is e. */
  ghost predicate StepIs(c: Config, run: seq<State>, k: nat, e: Event) {
    k + 1 < |run| && Step(c, run[k], e, run[k + 1])
  }

  /** Something the sender cannot make good: a read error, a worker that gives up. */
  predicate Spoils(e: Event) {
    e.ProdReadFail? || e.WorkerStartFail? || e.WorkerQuit? || e.WorkerSendFail? || e.WorkerAbandon?
  }

  /** The producer or a worker has failed. */
  ghost predicate Doomed(s: State) {
    s.prod == Closing(true) || s.prod == Closed(true) || s.prodErr == Some(true) || SomeFailed(s)
  }

  lemma StepDooms(c: Config, s: State, e: Event, s': State)
    requires Inv(c, s) && Step(c, s, e, s')
    ensures Doomed(s') <==> Doomed(s) || Spoils(e)
  {
    hide Inv, Tally, Zeros, FrameFor, PieceLen, SomeFailed;
    if ProducerStep(c, s, e, s') {
      ProducerLeavesWorkers(c, s, e, s');
      ExitedLate(c, s);
    } else if WorkerStep(c, s, Actor(e, |s.workers|), e, s') {
      WorkerFails(c, s, Actor(e, |s.workers|), e, s');
    } else {
      MainLeavesWorkers(s, e, s');
    }
  }

  lemma ExitedLate(c: Config, s: State)
    requires Inv(c, s)
    ensures s.prodErr.Some? ==> s.prod.Exited?
  {
  }

  lemma ProducerLeavesWorkers(c: Config, s: State, e: Event, s': State)
    requires ProducerStep(c, s, e, s')
    ensures s'.workers == s.workers && SomeFailed(s') == SomeFailed(s) && s'.main == s.main
  {
    hide Zeros, PieceLen;
  }

  lemma MainLeavesWorkers(s: State, e: Event, s': State)
    requires MainStep(s, e, s')
    ensures s'.workers == s.workers && SomeFailed(s') == SomeFailed(s)
    ensures s'.prod == s.prod && s'.prodErr == s.prodErr && !Spoils(e)
  {
    hide AllOk, AllExited;
  }

  lemma WorkerFails(c: Config, s: State, i: nat, e: Event, s': State)
    requires WorkerStep(c, s, i, e, s')
    ensures s'.prod == s.prod && s'.prodErr == s.prodErr && s'.main == s.main
    ensures SomeFailed(s') <==> SomeFailed(s) || Spoils(e)
    ensures !e.ProdReadFail?
  {
    hide FrameFor;
    assert s'.workers[i] == Exit(false) <==> Spoils(e);
    if SomeFailed(s) {
      var k :| 0 <= k < |s.workers| && s.workers[k] == Exit(false);
      assert s'.workers[k] == Exit(false);
    }
  }

  /** Where the coordinator goes once the producer's result is in. */
  lemma MainDecides(c: Config, s: State, e: Event, s': State)
    requires Inv(c, s) && Step(c, s, e, s')
    ensures s'.main.Aborted? <==> s.main.Aborted? || (e.MainRead? && Doomed(s))
    ensures s'.main.Flushing? ==> s.main.Flushing? || (e.MainRead? && !Doomed(s))
    ensures s'.main.Completed? <==> s.main.Completed? || e == MainComplete(true)
    ensures s'.main.CompleteFailed? <==> s.main.CompleteFailed? || e == MainComplete(false)
  {
    hide Inv, Doomed, Zeros, FrameFor, PieceLen, SomeFailed;
    if ProducerStep(c, s, e, s') {
      ProducerLeavesWorkers(c, s, e, s');
    } else if WorkerStep(c, s, Actor(e, |s.workers|), e, s') {
      WorkerFails(c, s, Actor(e, |s.workers|), e, s');
    } else if e.MainRead? {
      AwaitingKnows(c, s);
    }
  }

  /** By the time the producer's result is read every worker is gone, and the producer, too. */
  lemma AwaitingKnows(c: Config, s: State)
    requires Inv(c, s) && s.main.AwaitProducer? && s.prodErr.Some?
    ensures Doomed(s) <==> s.prodErr.value || !AllOk(s)
  {
    hide Contents, OneOwner, OnePlace, BytesAccounted, LossMeansFailure;
    if !AllOk(s) {
      var i :| 0 <= i < |s.workers| && s.workers[i] != Exit(true);
      assert s.workers[i] == Exit(false);
    }
  }

  /** Once something has spoiled the transfer the sender does not complete it: it can only end in an abort. */
  lemma {:induction false} FaultIsFatal(c: Config, run: seq<State>, i: nat, t: nat, e: Event)
    requires IsRun(c, run) && i < t < |run| && StepIs(c, run, i, e) && Spoils(e)
    ensures Doomed(run[t]) && !run[t].main.Completed? && (Ended(run[t].main) ==> run[t].main.Aborted?)
    decreases t
  {
    hide IsRun, Step, Doomed, Inv;
    RunKeepsInv(c, run, t - 1);
    RunKeepsInv(c, run, t);
    if i < t - 1 {
      FaultIsFatal(c, run, i, t - 1, e);
      assert Next(c, run[t - 1], run[t - 1 + 1]) by { StepsNext(c, run, t - 1); }
      var x :| Step(c, run[t - 1], x, run[t]);
      StepDooms(c, run[t - 1], x, run[t]);
    } else {
      StepDooms(c, run[i], e, run[t]);
    }
    DoomedAborts(c, run[t]);
  }

  lemma StepsNext(c: Config, run: seq<State>, k: nat)
    requires IsRun(c, run) && k + 1 < |run|
    ensures Next(c, run[k], run[k + 1])
  {
    hide Next;
  }

  lemma DoomedAborts(c: Config, s: State)
    requires Inv(c, s) && Doomed(s)
    ensures !s.main.Completed? && !s.main.CompleteFailed?
  {
    if s.main.Completed? || s.main.CompleteFailed? { InvTruthful(c, s); }
  }

  /** What the environment must have done for a worker to give up: refuse an encoder, or cancel. */
  ghost predicate Explained(c: Config, s: State, e: Event) {
    (e.WorkerStartFail? ==> c.coder.Zstd?) && (e.WorkerQuit? || e.WorkerAbandon? ==> s.cancelled)
  }

  lemma StepIsExplained(c: Config, s: State, e: Event, s': State)
    requires Step(c, s, e, s')
    ensures Explained(c, s, e)
    ensures IsFault(e) <==> Spoils(e) || e.Cancel? || e == MainComplete(false)
  {
    hide Zeros, PieceLen, FrameFor, AllOk, AllExited;
  }

  /**
   * And without a reason there is no abort: a read that fails, a channel that refuses a chunk, an encoder
   * that cannot be made, or a cancelled context.
   */
  lemma {:induction false} AbortHasCause(c: Config, run: seq<State>, t: nat) returns (k: nat, e: Event)
    requires IsRun(c, run) && t < |run| && (Doomed(run[t]) || run[t].main.Aborted?)
    ensures k < t && StepIs(c, run, k, e) && Spoils(e) && Explained(c, run[k], e)
    decreases t
  {
    hide IsRun, Step, Doomed, Inv;
    if t == 0 {
      HealthyAtFirst(c, run);
    } else {
      RunKeepsInv(c, run, t - 1);
      StepsNext(c, run, t - 1);
      e :| Step(c, run[t - 1], e, run[t]);
      StepDooms(c, run[t - 1], e, run[t]);
      MainDecides(c, run[t - 1], e, run[t]);
      StepIsExplained(c, run[t - 1], e, run[t]);
      if Doomed(run[t - 1]) || run[t - 1].main.Aborted? {
        k, e := AbortHasCause(c, run, t - 1);
      } else {
        k := t - 1;
      }
    }
  }

  lemma HealthyAtFirst(c: Config, run: seq<State>)
    requires IsRun(c, run)
    ensures !Doomed(run[0]) && run[0].main.Waiting?
  {
  }

  ghost predicate MayHappen(c: Config, s: State, e: Event) { exists s' :: Step(c, s, e, s') }

  /** What can go wrong can go wrong whenever it could. */
  lemma FaultsMayStrike(c: Config, s: State, i: nat, junk: bytes)
    requires i < |s.workers| == |s.sent| && |junk| == CHUNK_SIZE
    ensures s.prod.Holding? ==> MayHappen(c, s, ProdReadFail(junk))
    ensures s.workers[i].Starting? && c.coder.Zstd? ==> MayHappen(c, s, WorkerStartFail(i))
    ensures s.workers[i].Hold? ==> MayHappen(c, s, WorkerSendFail(i))
    ensures !s.cancelled ==> MayHappen(c, s, Cancel)
    ensures s.cancelled && s.workers[i].Idle? ==> MayHappen(c, s, WorkerQuit(i))
    ensures s.cancelled && s.workers[i].Sent? ==> MayHappen(c, s, WorkerAbandon(i))
  {
    hide Zeros, PieceLen, FrameFor, AllOk, AllExited;
    if s.prod.Holding? {
      assert Step(c, s, ProdReadFail(junk), s.(prod := Closing(true), pool := s.pool + multiset{s.prod.buf},
                                               bufs := s.bufs[s.prod.buf := junk]));
    }
    WorkersMayFail(c, s, i);
    if !s.cancelled { assert Step(c, s, Cancel, s.(cancelled := true)); }
  }

  lemma WorkersMayFail(c: Config, s: State, i: nat)
    requires i < |s.workers| == |s.sent|
    ensures s.workers[i].Starting? && c.coder.Zstd? ==> MayHappen(c, s, WorkerStartFail(i))
    ensures s.workers[i].Hold? ==> MayHappen(c, s, WorkerSendFail(i))
    ensures s.cancelled && s.workers[i].Idle? ==> MayHappen(c, s, WorkerQuit(i))
    ensures s.cancelled && s.workers[i].Sent? ==> MayHappen(c, s, WorkerAbandon(i))
  {
    hide FrameFor;
    var gone := s.workers[i := Exit(false)];
    match s.workers[i] {
      case Starting => if c.coder.Zstd? { assert Step(c, s, WorkerStartFail(i), s.(workers := gone)); }
      case Idle => if s.cancelled { assert Step(c, s, WorkerQuit(i), s.(workers := gone)); }
      case Hold(k) =>
        assert Step(c, s, WorkerSendFail(i), s.(workers := gone, pool := s.pool + multiset{k.buf}, lost := s.lost + [k]));
      case Sent(k) =>
        if s.cancelled {
          assert Step(c, s, WorkerAbandon(i), s.(workers := gone, pool := s.pool + multiset{k.buf},
                                                 abandoned := s.abandoned + k.len));
        }
      case _ =>
    }
  }

  /** The producer may take any buffer back from the pool, and a new one whenever it likes. */
  lemma PoolIsReused(c: Config, s: State, b: nat)
    requires s.prod.AtTop?
    ensures b in s.pool || b !in s.bufs ==> exists s' :: Step(c, s, ProdGet(b), s')
  {
    if b in s.pool || b !in s.bufs {
      assert Step(c, s, ProdGet(b), s.(prod := Holding(b), pool := s.pool - multiset{b},
                                       bufs := if b in s.bufs then s.bufs else s.bufs[b := Zeros()]));
    }
  }

  /** The channel of chunks has room for two a peer: the producer waits exactly when it is full. */
  lemma QueueIsBounded(c: Config, run: seq<State>, t: nat)
    requires IsRun(c, run) && t < |run|
    ensures |run[t].queue| <= 2 * c.n
    ensures run[t].prod.Ready? ==> ((exists s' :: Step(c, run[t], ProdPush, s')) <==> |run[t].queue| < 2 * c.n)
  {
    RoomLeft(c, run, t);
    hide IsRun;
    var s := run[t];
    if s.prod.Ready? && |s.queue| < 2 * c.n {
      assert Step(c, s, ProdPush, s.(queue := s.queue + [s.prod.chunk], prod := if s.prod.last then Closing(false) else AtTop));
    }
  }

  lemma {:induction false} RoomLeft(c: Config, run: seq<State>, t: nat)
    requires IsRun(c, run) && t < |run|
    ensures |run[t].queue| <= 2 * c.n
  {
    if t > 0 {
      RoomLeft(c, run, t - 1);
      hide IsRun;
      StepsNext(c, run, t - 1);
      var e :| Step(c, run[t - 1], e, run[t]);
      hide Step;
      RoomStep(c, run[t - 1], e, run[t]);
    }
  }

  lemma RoomStep(c: Config, s: State, e: Event, s': State)
    requires Step(c, s, e, s') && |s.queue| <= 2 * c.n
    ensures |s'.queue| <= 2 * c.n
  {
    hide Zeros, PieceLen, FrameFor, AllOk, AllExited;
  }
}
