/** From counted bytes to covered bytes: when the frames handled so far make up the whole file. */
module Coverage {
  import opened Bytes
  import opened Frames
  import opened Pieces
  import opened Tallies
  import opened Pipeline
  import opened PipelineProofs

  /** Bytes of the first counts[i] frames of every log. */
  ghost function SumTo(sent: seq<seq<Frame>>, counts: seq<nat>, n: nat, size: nat): nat
    requires n <= |sent| && n <= |counts| && forall i :: 0 <= i < n ==> counts[i] <= |sent[i]|
  {
    if n == 0 then 0 else SumTo(sent, counts, n - 1, size) + TallyTo(sent[n - 1], counts[n - 1], FrameLen(size))
  }

  ghost predicate Fits(sent: seq<seq<Frame>>, counts: seq<nat>) {
    |counts| == |sent| && forall i :: 0 <= i < |sent| ==> counts[i] <= |sent[i]|
  }

  /** Logs only grow at their ends. */
  ghost predicate Extends(sent: seq<seq<Frame>>, sent': seq<seq<Frame>>) {
    |sent'| == |sent| && forall i :: 0 <= i < |sent| ==> sent[i] <= sent'[i]
  }

  lemma {:induction false} SumExtends(sent: seq<seq<Frame>>, sent': seq<seq<Frame>>, counts: seq<nat>, n: nat, size: nat)
    requires Fits(sent, counts) && Extends(sent, sent') && n <= |sent|
    ensures Fits(sent', counts) && SumTo(sent', counts, n, size) == SumTo(sent, counts, n, size)
  {
    if n > 0 {
      SumExtends(sent, sent', counts, n - 1, size);
      TallyAgree(sent[n - 1], sent'[n - 1], counts[n - 1], FrameLen(size));
    }
  }

  lemma {:induction false} SumBumps(sent: seq<seq<Frame>>, counts: seq<nat>, i: nat, n: nat, size: nat)
    requires Fits(sent, counts) && i < n <= |sent| && counts[i] < |sent[i]|
    ensures Fits(sent, counts[i := counts[i] + 1])
    ensures SumTo(sent, counts[i := counts[i] + 1], n, size)
         == SumTo(sent, counts, n, size) + FrameLen(size)(sent[i][counts[i]])
  {
    var more := counts[i := counts[i] + 1];
    if i == n - 1 {
      SumSame(sent, counts, more, n - 1, size);
    } else {
      SumBumps(sent, counts, i, n - 1, size);
    }
  }

  lemma {:induction false} SumSame(sent: seq<seq<Frame>>, counts: seq<nat>, more: seq<nat>, n: nat, size: nat)
    requires Fits(sent, counts) && Fits(sent, more) && n <= |sent| && forall i :: 0 <= i < n ==> counts[i] == more[i]
    ensures SumTo(sent, counts, n, size) == SumTo(sent, more, n, size)
  {
    if n > 0 {
      SumSame(sent, counts, more, n - 1, size);
    }
  }

  lemma {:induction false} SumZero(sent: seq<seq<Frame>>, counts: seq<nat>, n: nat, size: nat)
    requires Fits(sent, counts) && n <= |sent| && forall i :: 0 <= i < n ==> counts[i] == 0
    ensures SumTo(sent, counts, n, size) == 0
  {
    if n > 0 {
      SumZero(sent, counts, n - 1, size);
    }
  }

  // ---- Full counts ----

  ghost predicate AllCarry(size: nat, log: seq<Frame>) {
    forall j :: 0 <= j < |log| ==> log[j].Data? && log[j].offset < size
  }

  lemma {:induction false} PartBelow(log: seq<Frame>, k: nat, n: nat, size: nat)
    requires k <= n <= |log| && AllCarry(size, log)
    ensures TallyTo(log, k, FrameLen(size)) + (n - k) <= TallyTo(log, n, FrameLen(size))
  {
    if k < n {
      PartBelow(log, k, n - 1, size);
    }
  }

  /** A count that leaves frames out leaves bytes out: the sum reaches the total only when every count is full. */
  lemma {:induction false} SumBelow(sent: seq<seq<Frame>>, counts: seq<nat>, n: nat, size: nat)
    requires Fits(sent, counts) && n <= |sent| && forall i :: 0 <= i < n ==> AllCarry(size, sent[i])
    ensures SumTo(sent, counts, n, size) <= TallyTo(sent, n, LogLen(size))
    ensures SumTo(sent, counts, n, size) == TallyTo(sent, n, LogLen(size)) ==>
              forall i :: 0 <= i < n ==> counts[i] == |sent[i]|
  {
    if n > 0 {
      SumBelow(sent, counts, n - 1, size);
      PartBelow(sent[n - 1], counts[n - 1], |sent[n - 1]|, size);
    }
  }

  // ---- The pipeline once everything is on the wire ----

  lemma FramesCarry(c: Config, s: State, i: nat)
    requires Inv(c, s) && i < |s.sent|
    ensures AllCarry(|c.file|, s.sent[i])
  {
    forall j | 0 <= j < |s.sent[i]| ensures s.sent[i][j].Data? && s.sent[i][j].offset < |c.file| {
      assert FrameOk(c, s.sent[i][j]);
    }
  }

  lemma WireBounded(c: Config, s: State)
    requires Inv(c, s)
    ensures OnTheWire(c, s) <= s.read <= |c.file|
  {
    hide OnTheWire, Tally;
  }

  /** Nobody holds a chunk any more. */
  ghost predicate Drained(s: State) {
    && !s.prod.Ready? && s.queue == [] && !s.main.DrainHand? && s.lost == []
    && forall i :: 0 <= i < |s.workers| ==> !s.workers[i].Hold?
  }

  /** Chunks are not empty, so wherever there is one there are bytes. */
  lemma ChunksWeigh(c: Config, s: State)
    requires Inv(c, s)
    ensures s.prod.Ready? ==> s.prod.chunk.len > 0
    ensures s.main.DrainHand? ==> s.main.chunk.len > 0
    ensures s.queue != [] ==> Tally(s.queue, ChunkLen()) > 0
    ensures s.lost != [] ==> Tally(s.lost, ChunkLen()) > 0
    ensures forall i :: 0 <= i < |s.workers| && s.workers[i].Hold? ==> Tally(s.workers, HoldLen()) > 0
  {
    hide Tally, ChunkOk, LostOk, OneOwner, OnePlace, LossMeansFailure, Shape, BytesAccounted, FrameOk;
    if s.prod.Ready? { ChunkWeighs(c, s, s.prod.chunk); }
    if s.main.DrainHand? { ChunkWeighs(c, s, s.main.chunk); }
    if s.queue != [] {
      ChunkWeighs(c, s, s.queue[0]);
      OneOfThem(s.queue, 0, ChunkLen());
    }
    if s.lost != [] {
      LostWeighs(c, s.lost[0]);
      OneOfThem(s.lost, 0, ChunkLen());
    }
    forall i | 0 <= i < |s.workers| && s.workers[i].Hold? ensures Tally(s.workers, HoldLen()) > 0 {
      ChunkWeighs(c, s, s.workers[i].chunk);
      OneOfThem(s.workers, i, HoldLen());
    }
  }

  lemma ChunkWeighs(c: Config, s: State, k: Chunk)
    requires ChunkOk(c, s, k)
    ensures k.len > 0
  {
  }

  lemma LostWeighs(c: Config, k: Chunk)
    requires LostOk(c, k)
    ensures k.len > 0
  {
  }

  lemma OneOfThem<T(!new)>(s: seq<T>, i: nat, m: T -> nat)
    requires i < |s|
    ensures Tally(s, m) >= m(s[i])
  {
    TallyAtLeast(s, |s|, i, m);
  }

  lemma NothingElsewhere(c: Config, s: State)
    requires Inv(c, s) && OnTheWire(c, s) == |c.file|
    ensures s.read == |c.file| && Drained(s)
  {
    assert BytesInPlay(c, s) == s.read && s.read <= |c.file|;
    ChunksWeigh(c, s);
    hide OnTheWire, Inv, Tally;
  }

  /** Once the frames on the wire make up the whole file, every piece of it is there, once. */
  lemma WireHoldsEveryPiece(c: Config, s: State, o: nat)
    requires Inv(c, s) && OnTheWire(c, s) == |c.file| && OnGrid(o) && o < |c.file|
    ensures SentCount(s.sent, o) == 1
  {
    NothingElsewhere(c, s);
    assert Places(s, o) == 1;
    hide OnTheWire, SentCount, Inv;
    TallyZero(s.workers, |s.workers|, WorkerAt(o));
  }

  lemma FindPiece(sent: seq<seq<Frame>>, o: nat) returns (i: nat, j: nat)
    requires SentCount(sent, o) > 0
    ensures i < |sent| && j < |sent[i]| && sent[i][j].Data? && sent[i][j].offset == o
  {
    i := TallySome(sent, |sent|, LogAt(o));
    j := TallySome(sent[i], |sent[i]|, FrameAt(o));
  }

  /** The logs grow, and not at all once the whole file is on the wire. */
  lemma LogsGrow(c: Config, s: State, e: Event, s': State)
    requires Inv(c, s) && Step(c, s, e, s')
    ensures Extends(s.sent, s'.sent)
    ensures OnTheWire(c, s) == |c.file| ==> s'.sent == s.sent
  {
    if OnTheWire(c, s) == |c.file| { NothingElsewhere(c, s); }
    assert |s.workers| == |s.sent|;
    hide Inv, OnTheWire;
    StepSends(c, s, e, s');
  }

  /** Only a worker that holds a chunk sends. */
  lemma StepSends(c: Config, s: State, e: Event, s': State)
    requires Step(c, s, e, s')
    ensures Extends(s.sent, s'.sent)
    ensures s'.sent == s.sent || exists i :: 0 <= i < |s.workers| && s.workers[i].Hold?
  {
    hide FrameFor, Zeros, PieceLen;
    if ProducerStep(c, s, e, s') {
      assert s'.sent == s.sent;
    } else if WorkerStep(c, s, Actor(e, |s.workers|), e, s') {
      if e.WorkerSend? { assert s.workers[Actor(e, |s.workers|)].Hold?; }
    }
  }

  // ---- From pieces to bytes ----

  /** The file's own bytes are in place where frame f goes. */
  ghost predicate Landed(file: bytes, sink: bytes, f: Frame) {
    && f.Data? && f.offset + PieceLen(|file|, f.offset) <= |sink|
    && forall q: nat :: f.offset <= q < f.offset + PieceLen(|file|, f.offset) ==> sink[q] == file[q]
  }

  /** If the frame of every piece has landed, the output is the file. */
  lemma CoveredIsEqual(file: bytes, sink: bytes, sent: seq<seq<Frame>>)
    requires |sink| == |file|
    requires forall i, j :: 0 <= i < |sent| && 0 <= j < |sent[i]| ==> Landed(file, sink, sent[i][j])
    requires forall o: nat :: OnGrid(o) && o < |file| ==> SentCount(sent, o) == 1
    ensures sink == file
  {
    hide SentCount;
    forall q | 0 <= q < |file| ensures sink[q] == file[q] {
      var o := GridBelow(q, |file|);
      var i, j := FindPiece(sent, o);
      assert Landed(file, sink, sent[i][j]);
    }
  }

  /** The start of the piece a byte lies in. */
  lemma GridBelow(q: nat, size: nat) returns (o: nat)
    requires q < size
    ensures OnGrid(o) && o <= q < o + PieceLen(size, o) && o < size
  {
    o := q - q % 262_144;
  }
}
