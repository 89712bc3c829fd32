/** Writing, counting and signalling at the receiver of a whole transfer. */
module TransferWriting {
  import opened Bytes
  import opened Frames
  import opened Pieces
  import opened Coders
  import opened CoreSpec
  import opened Transfer
  import opened Coverage
  import opened TransferProofs
  import opened TransferSteps
  import opened TransferReceiving
  import P = Pipeline
  import T = Tallies
  import R = MultiReceiver
  import PP = PipelineProofs
  import RP = ReceiverProofs

  /** Whatever has changed now holds the byte of the file. */
  ghost predicate OnlyFileBytes(file: bytes, sink: bytes, sink': bytes) {
    |sink'| == |sink| == |file| && forall q: nat :: q < |file| ==> sink'[q] == sink[q] || sink'[q] == file[q]
  }

  lemma PutPrefix(file: bytes, sink: bytes, at: nat, n: nat, k: nat)
    requires |sink| == |file| && k <= n && at + n <= |file|
    ensures var s := R.PutAt(sink, at, file[at..at + n][..k]);
            OnlyFileBytes(file, sink, s) && forall q :: at <= q < at + k ==> s[q] == file[q]
  {
    var x := file[at..at + k];
    assert file[at..at + n][..k] == x;
    RP.PutAtFits(sink, at, x);
    hide R.PutAt;
    forall q: nat | q < |file| ensures R.PutAt(sink, at, x)[q] == if at <= q < at + k then file[q] else sink[q] {
    }
  }

  /** What a write of frame f's piece does, whether it completes, fails early or fails late. */
  lemma WriteIs(p: Plan, r: R.Receiver, h: R.Handler, f: Frame, w: Writing)
    requires |r.out.sink| == |p.file| && f.Data? && f.offset < |p.file|
    requires h.turn == R.Checked(f.offset, P.PieceAt(p.file, f.offset))
    ensures var (t, o, err) := R.DataStep(Setup(p), r.gate, r.out, h, R.Write(w));
            && o == r.out.(sink := o.sink) && OnlyFileBytes(p.file, r.out.sink, o.sink)
            && (err.None? ==> t == R.Wrote(PieceLen(|p.file|, f.offset)) && Landed(p.file, o.sink, f))
            && (err.Some? ==> t == R.Stopped && err == Some(WriteFailed))
  {
    hide R.PutAt;
    var piece := P.PieceAt(p.file, f.offset);
    PutPrefix(p.file, r.out.sink, f.offset, |piece|, |piece|);
    assert piece[..|piece|] == piece;
    if w.Failed? && w.prefix < |piece| { PutPrefix(p.file, r.out.sink, f.offset, |piece|, w.prefix); }
  }

  lemma StillLanded(file: bytes, sink: bytes, sink': bytes, f: Frame)
    requires OnlyFileBytes(file, sink, sink') && Landed(file, sink, f)
    ensures Landed(file, sink', f)
  {
    forall q: nat | f.offset <= q < f.offset + PieceLen(|file|, f.offset) ensures sink'[q] == file[q] {
      assert sink[q] == file[q];
    }
  }

  // ---- A peer's own steps ----

  /** A local step of peer id. */
  predicate LocalPeer(p: Plan, s: System, id: byte, a: R.DataAct, s': System) {
    IsLocal(R.Peer(id, a)) && LocalStep(p, s, R.Peer(id, a), s')
  }

  /** What a local step of peer id is, in terms of its handler. */
  ghost predicate Moves(p: Plan, s: System, id: byte, a: R.DataAct, s': System) {
    && ShapeOk(p, s) && ShapeOk(p, s') && id < p.n && id in s.rcv.handlers && !a.Install?
    && PeerStep(p, s, id, a, s') && s'.taken == s.taken
    && var x := R.DataStep(Setup(p), s.rcv.gate, s.rcv.out, s.rcv.handlers[id], a);
       && s'.wrote == (if a.Write? && x.2.None? then s.wrote[id := s.wrote[id] + 1] else s.wrote)
       && s'.counted == (if a.Count? then s.counted[id := s.counted[id] + 1] else s.counted)
       && s'.rcv.handlers == s.rcv.handlers[id := s.rcv.handlers[id].(turn := x.0)]
       && s'.rcv.out == x.1 && s'.rcv.gate == s.rcv.gate && s'.rcv.callers.verifiers == s.rcv.callers.verifiers
       && (Blameless(s.rcv) && (x.2.Some? ==> !R.BlamesSender(x.2.value)) ==> Blameless(s'.rcv))
  }

  lemma LocalMoves(p: Plan, s: System, id: byte, a: R.DataAct, s': System)
    requires ShapeOk(p, s) && id < p.n && LocalPeer(p, s, id, a, s')
    ensures Moves(p, s, id, a, s')
  {
    hide R.DataStep;
  }

  /** What is known about peer id before it moves. */
  ghost predicate Ready(p: Plan, s: System, id: byte)
    requires |p.file| < TWO64
  {
    && ValidPlan(p) && ShapeOk(p, s) && DataOk(p, s) && PP.Inv(PipeConfig(p), s.pipe)
    && id < p.n && id in s.rcv.handlers
    && CursorOk(p, s.rcv, s.pipe.sent[id], id, s.taken[id], s.wrote[id], s.counted[id])
    && s.rcv.out.sized && s.rcv.out.meta == Some(Announced(p)) && |s.rcv.out.sink| == |p.file|
  }

  lemma HandlerReady(p: Plan, s: System, id: byte)
    requires Inv(p, s) && Healthy(s) && id in s.rcv.handlers
    ensures Ready(p, s, id)
  {
    HandlerMeans(p, s, id);
    hide RP.Inv, PP.Inv, PeersOk, CursorOk, SumOk, SinkOk;
  }

  // ---- Write ----

  lemma WriteData(p: Plan, s: System, id: byte, w: Writing, s': System)
    requires |p.file| < TWO64 && Ready(p, s, id) && Moves(p, s, id, R.Write(w), s')
    ensures ShapeOk(p, s') && DataOk(p, s')
  {
    hide R.DataStep, R.DoPeer, PP.Inv, CursorsOk, SumTo, Landed, OnlyFileBytes, SinkOk;
    var f := s.pipe.sent[id][s.taken[id] - 1];
    WriteIs(p, s.rcv, s.rcv.handlers[id], f, w);
    OtherCursors(p, s, id, R.Write(w), s');
    WriteSink(p, s, id, s');
  }

  lemma WriteSink(p: Plan, s: System, id: byte, s': System)
    requires ShapeOk(p, s) && ShapeOk(p, s') && SinkOk(p, s) && id < p.n && s'.pipe == s.pipe
    requires OnlyFileBytes(p.file, s.rcv.out.sink, s'.rcv.out.sink)
    requires s'.wrote == s.wrote || (s'.wrote == s.wrote[id := s.wrote[id] + 1] && s.wrote[id] < |s.pipe.sent[id]|
                                     && Landed(p.file, s'.rcv.out.sink, s.pipe.sent[id][s.wrote[id]]))
    ensures SinkOk(p, s')
  {
    hide OnlyFileBytes, Landed;
    forall i, j | 0 <= i < p.n && 0 <= j < s'.wrote[i] && j < |s'.pipe.sent[i]|
      ensures Landed(p.file, s'.rcv.out.sink, s'.pipe.sent[i][j])
    {
      if j < s.wrote[i] {
        assert Landed(p.file, s.rcv.out.sink, s.pipe.sent[i][j]);
        StillLanded(p.file, s.rcv.out.sink, s'.rcv.out.sink, s.pipe.sent[i][j]);
      }
    }
  }

  // ---- Count ----

  lemma CountData(p: Plan, s: System, id: byte, s': System)
    requires |p.file| < TWO64 && Ready(p, s, id) && Moves(p, s, id, R.Count, s')
    ensures ShapeOk(p, s') && DataOk(p, s')
  {
    hide R.DoPeer, PP.Inv, CursorsOk, SumTo, Landed;
    CountSum(p, s, id);
    OtherCursors(p, s, id, R.Count, s');
  }

  lemma CountSum(p: Plan, s: System, id: byte)
    requires ShapeOk(p, s) && SumOk(p, s) && PP.Inv(PipeConfig(p), s.pipe)
    requires id < p.n && s.counted[id] < |s.pipe.sent[id]|
    ensures var more := s.counted[id := s.counted[id] + 1];
            && Fits(s.pipe.sent, more)
            && SumTo(s.pipe.sent, more, p.n, |p.file|)
                 == s.rcv.out.bytesWritten + PieceLen(|p.file|, s.pipe.sent[id][s.counted[id]].offset)
            && SumTo(s.pipe.sent, more, p.n, |p.file|) <= |p.file|
    ensures s.pipe.sent[id][s.counted[id]].Data?
  {
    hide PP.Inv, PP.OnTheWire;
    var more := s.counted[id := s.counted[id] + 1];
    SumBumps(s.pipe.sent, s.counted, id, p.n, |p.file|);
    forall i | 0 <= i < p.n ensures AllCarry(|p.file|, s.pipe.sent[i]) { FramesCarry(PipeConfig(p), s.pipe, i); }
    WireIsBounded(p, s.pipe);
    SumBelow(s.pipe.sent, more, p.n, |p.file|);
  }

  lemma WireIsBounded(p: Plan, s: P.State)
    requires PP.Inv(PipeConfig(p), s) && |s.sent| == p.n
    ensures T.TallyTo(s.sent, p.n, PP.LogLen(|p.file|)) <= |p.file|
  {
    WireBounded(PipeConfig(p), s);
    hide PP.Inv;
  }

  // ---- Signal, and the close of a data channel ----

  lemma SignalData(p: Plan, s: System, id: byte, a: R.DataAct, s': System)
    requires |p.file| < TWO64 && Ready(p, s, id) && Moves(p, s, id, a, s') && (a.Signal? || a.Closed? || a.Breaks?)
    ensures ShapeOk(p, s') && DataOk(p, s')
  {
    hide R.DoPeer, PP.Inv, CursorsOk, SumTo, Landed;
    OtherCursors(p, s, id, a, s');
  }

  lemma PeerLocalKeeps(p: Plan, s: System, id: byte, a: R.DataAct, s': System)
    requires Inv(p, s) && LocalPeer(p, s, id, a, s')
    ensures Inv(p, s')
  {
    hide RP.Inv, PP.Inv, DataOk, PeersOk, MetaOk, R.DoPeer, R.DataStep, Moves, Ready;
    PeerLocalMoves(p, s, id, a, s');
    if Healthy(s) {
      HandlerReady(p, s, id);
      match a {
        case Write(w) => WriteData(p, s, id, w, s');
        case Count => CountData(p, s, id, s');
        case _ => SignalData(p, s, id, a, s');
      }
    }
  }

  lemma PeerLocalMoves(p: Plan, s: System, id: byte, a: R.DataAct, s': System)
    requires Inv(p, s) && LocalPeer(p, s, id, a, s')
    ensures Moves(p, s, id, a, s') && id in s.rcv.handlers && !a.Install? && !a.Deliver? && ShapeOk(p, s')
    ensures RP.Inv(Setup(p), s'.rcv) && PeersOk(p, s') && MetaOk(p, s')
    ensures s'.rcv.gate == s.rcv.gate && s'.pipe == s.pipe
  {
    hide RP.Inv, PP.Inv, DataOk, PeersOk, MetaOk, R.DoPeer, R.DataStep;
    HandlerMeans(p, s, id);
    LocalMoves(p, s, id, a, s');
    PeerRest(p, s, id, a, s');
  }
}
