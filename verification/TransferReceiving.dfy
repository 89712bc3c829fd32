/** The steps by which a data peer's frames become bytes of the output. */
module TransferReceiving {
  import opened Bytes
  import opened Frames
  import opened Pieces
  import opened Coders
  import opened CoreSpec
  import opened Transfer
  import opened Coverage
  import opened TransferProofs
  import opened TransferSteps
  import P = Pipeline
  import R = MultiReceiver
  import HP = HandshakeProofs
  import PP = PipelineProofs
  import RP = ReceiverProofs

  /** A step of peer id's handler; the counts follow in s'. */
  predicate PeerStep(p: Plan, s: System, id: byte, a: R.DataAct, s': System) {
    && R.CanPeer(s.rcv, id, a)
    && s' == s.(rcv := R.DoPeer(Setup(p), s.rcv, id, a), taken := s'.taken, wrote := s'.wrote, counted := s'.counted)
  }

  lemma PeerRest(p: Plan, s: System, id: byte, a: R.DataAct, s': System)
    requires Inv(p, s) && PeerStep(p, s, id, a, s')
    ensures RP.Inv(Setup(p), s'.rcv) && PeersOk(p, s') && MetaOk(p, s')
    ensures s'.rcv.gate == s.rcv.gate && s'.pipe == s.pipe
    ensures s'.rcv.out.meta == s.rcv.out.meta && s'.rcv.out.sized == s.rcv.out.sized
  {
    hide RP.Inv, PP.Inv, DataOk, HP.LogOk, HP.FlowOk, HP.NegsMatch, R.DoPeer, R.CanPeer, RP.SizeOk, RP.TurnsOk;
    RP.PeerFrame(Setup(p), s.rcv, id, a);
    DoIsPeer(p, s.rcv, id, a);
    RP.StepKeepsInv(Setup(p), s.rcv, R.Peer(id, a));
    OutputAfter(p, s.rcv, id, a);
  }

  lemma DoIsPeer(p: Plan, r: R.Receiver, id: byte, a: R.DataAct)
    requires R.CanPeer(r, id, a)
    ensures R.Can(r, R.Peer(id, a)) && R.Do(Setup(p), r, R.Peer(id, a)) == R.DoPeer(Setup(p), r, id, a)
  {
    hide R.DoPeer, R.CanPeer;
  }

  lemma OutputAfter(p: Plan, r: R.Receiver, id: byte, a: R.DataAct)
    requires RP.Inv(Setup(p), r) && R.CanPeer(r, id, a)
    ensures var d := R.DoPeer(Setup(p), r, id, a); d.out.meta == r.out.meta && d.out.sized == r.out.sized
  {
    hide R.DataStep, RP.GateOk, RP.NegsOk, RP.AnswersOk, RP.HandlersOk, RP.SizeOk, RP.TurnsOk;
    if !a.Install? { RP.PeerTurn(Setup(p), r, id, a); }
  }

  /** A data handler exists only for one of the plan's peers, and only once the output has its size. */
  lemma HandlerMeans(p: Plan, s: System, id: byte)
    requires Inv(p, s) && (id in s.rcv.handlers || id in s.rcv.negs)
    ensures id < p.n && s.rcv.out.sized && s.rcv.out.meta == Some(Announced(p)) && |s.rcv.out.sink| == |p.file|
  {
    assert RP.HandlersOk(s.rcv) && RP.SizeOk(s.rcv);
    assert id in s.rcv.negs;
    hide RP.Inv, PP.Inv, DataOk, HP.LogOk, HP.FlowOk;
  }

  /** The other peers' cursors do not notice. */
  lemma OtherCursors(p: Plan, s: System, id: byte, a: R.DataAct, s': System)
    requires ShapeOk(p, s) && ShapeOk(p, s') && CursorsOk(p, s) && PeerStep(p, s, id, a, s')
    requires forall i :: 0 <= i < p.n && i != id ==>
               s'.taken[i] == s.taken[i] && s'.wrote[i] == s.wrote[i] && s'.counted[i] == s.counted[i]
    requires id < p.n ==> CursorOk(p, s'.rcv, s.pipe.sent[id], id, s'.taken[id], s'.wrote[id], s'.counted[id])
    ensures CursorsOk(p, s')
  {
    RP.PeerFrame(Setup(p), s.rcv, id, a);
    hide CursorOk, R.DoPeer;
    forall i: byte | i < p.n
      ensures CursorOk(p, s'.rcv, s'.pipe.sent[i], i, s'.taken[i], s'.wrote[i], s'.counted[i])
    {
      if i != id {
        assert CursorOk(p, s.rcv, s.pipe.sent[i], i, s.taken[i], s.wrote[i], s.counted[i]);
        CursorSame(p, s.rcv, s'.rcv, s.pipe.sent[i], i, s.taken[i], s.wrote[i], s.counted[i]);
      }
    }
  }

  // ---- The channel opens ----

  lemma InstallKeeps(p: Plan, s: System, i: nat, ok: bool, s': System)
    requires Inv(p, s) && InstallStep(p, s, i, ok, s')
    ensures Inv(p, s')
  {
    hide RP.Inv, PP.Inv, DataOk, PeersOk, MetaOk, R.DoPeer, R.CanPeer;
    var id: byte := i;
    PeerRest(p, s, id, R.Install(ok), s');
    if Healthy(s) { InstallData(p, s, id, ok, s'); }
  }

  lemma InstallData(p: Plan, s: System, id: byte, ok: bool, s': System)
    requires Inv(p, s) && Healthy(s) && id < p.n && InstallStep(p, s, id, ok, s')
    ensures ShapeOk(p, s') && DataOk(p, s')
  {
    hide RP.Inv, PP.Inv, PeersOk, SumOk, SinkOk, FlagsOk, Blameless, CursorsOk, R.DoPeer;
    TransferSteps.FlagsPart(p, s);
    CursorAt(p, s, id);
    HandlerMeans(p, s, id);
    InstallFlags(p, s.rcv, id, ok);
    OtherCursors(p, s, id, R.Install(ok), s');
    InstallSums(p, s, s');
  }

  lemma InstallSums(p: Plan, s: System, s': System)
    requires ShapeOk(p, s) && SumOk(p, s) && SinkOk(p, s)
    requires s' == s.(rcv := s'.rcv) && s'.rcv.out == s.rcv.out
    ensures SumOk(p, s') && SinkOk(p, s')
  {
  }

  lemma InstallFlags(p: Plan, r: R.Receiver, id: byte, ok: bool)
    requires FlagsOk(p, r) && Blameless(r) && R.CanPeer(r, id, R.Install(ok))
    ensures var d := R.DoPeer(Setup(p), r, id, R.Install(ok));
            && FlagsOk(p, d) && Blameless(d) && d.out == r.out
            && (id in d.handlers ==> d.handlers[id] == R.Handler(R.NeedsDecoder(r.out), R.Idle))
  {
    hide Enough;
  }

  // ---- A frame is taken ----

  lemma TakeKeeps(p: Plan, s: System, i: nat, s': System)
    requires Inv(p, s) && TakeStep(p, s, i, s')
    ensures Inv(p, s')
  {
    hide RP.Inv, PP.Inv, DataOk, PeersOk, MetaOk, R.DoPeer, R.CanPeer;
    var id: byte := i;
    PeerRest(p, s, id, R.Deliver(s.pipe.sent[id][s.taken[id]]), s');
    if Healthy(s) { TakeData(p, s, id, s'); }
  }

  lemma CleanOnceSwept(u: R.Setup, m: Option<Metadata>, g: R.DoneGate)
    requires RP.GateOk(u, m, g) && g.result.None? && g.cleanups != 0
    ensures RP.Clean(g)
  {
    if g.at.Held? {
      match g.at.stage {
        case Discarding =>
        case Removing =>
        case _ =>
      }
    }
  }

  /** While a frame waits to be taken, cleanup has not run: a verification would need all bytes. */
  lemma NotSwept(p: Plan, s: System, i: nat)
    requires Inv(p, s) && Healthy(s) && i < p.n && s.taken[i] < |s.pipe.sent[i]|
    ensures s.rcv.gate.cleanups == 0
  {
    if s.rcv.gate.cleanups != 0 {
      CleanOnceSwept(Setup(p), s.rcv.out.meta, s.rcv.gate);
      AllCounted(p, s);
      assert false;
    }
  }

  lemma TakeData(p: Plan, s: System, id: byte, s': System)
    requires Inv(p, s) && Healthy(s) && TakeStep(p, s, id, s')
    ensures ShapeOk(p, s') && DataOk(p, s')
  {
    hide RP.Inv, PP.Inv, PeersOk, MetaOk, SumOk, SinkOk, FlagsOk, Blameless, CursorsOk, R.DataStep, R.DoPeer,
      TurnMatches;
    NotSwept(p, s, id);
    HandlerMeans(p, s, id);
    var f := s.pipe.sent[id][s.taken[id]];
    SentFrameOk(p, s, id);
    CursorAt(p, s, id);
    FrameIsAccepted(p, s.rcv, id, f);
    TakenParts(p, s, id, f, s');
    TakenCursor(p, s, id, f, s');
    OtherCursors(p, s, id, R.Deliver(f), s');
  }

  lemma SentFrameOk(p: Plan, s: System, id: byte)
    requires Inv(p, s) && id < p.n && s.taken[id] < |s.pipe.sent[id]|
    ensures PP.FrameOk(PipeConfig(p), s.pipe.sent[id][s.taken[id]])
  {
    hide RP.Inv, PeersOk, MetaOk, DataOk, PP.Shape, PP.OneOwner, PP.OnePlace, PP.LossMeansFailure, PP.BytesAccounted,
      PP.FrameOk;
  }

  lemma CursorAt(p: Plan, s: System, id: byte)
    requires ShapeOk(p, s) && DataOk(p, s) && id < p.n
    ensures CursorOk(p, s.rcv, s.pipe.sent[id], id, s.taken[id], s.wrote[id], s.counted[id])
  {
    hide CursorOk, SumOk, SinkOk, FlagsOk, Blameless;
  }

  lemma TakenCursor(p: Plan, s: System, id: byte, f: Frame, s': System)
    requires ShapeOk(p, s) && ShapeOk(p, s') && id < p.n && PeerStep(p, s, id, R.Deliver(f), s')
    requires CursorOk(p, s.rcv, s.pipe.sent[id], id, s.taken[id], s.wrote[id], s.counted[id])
    requires s.taken[id] < |s.pipe.sent[id]| && f == s.pipe.sent[id][s.taken[id]] && f.Data? && f.offset < |p.file|
    requires s'.taken == s.taken[id := s.taken[id] + 1] && s'.wrote == s.wrote && s'.counted == s.counted
    requires R.DataStep(Setup(p), s.rcv.gate, s.rcv.out, s.rcv.handlers[id], R.Deliver(f))
          == (R.Checked(f.offset, P.PieceAt(p.file, f.offset)), s.rcv.out, None)
    ensures CursorOk(p, s'.rcv, s.pipe.sent[id], id, s'.taken[id], s'.wrote[id], s'.counted[id])
  {
    hide R.DataStep;
  }

  /** The honest sender's frame passes decompression and the bounds test. */
  lemma FrameIsAccepted(p: Plan, r: R.Receiver, id: byte, f: Frame)
    requires ValidPlan(p) && id in r.handlers && r.handlers[id].turn.Idle? && PP.FrameOk(PipeConfig(p), f)
    requires r.handlers[id].decoder == p.coder.Zstd? && r.out.meta == Some(Announced(p))
    ensures R.DataStep(Setup(p), r.gate, r.out, r.handlers[id], R.Deliver(f))
         == (R.Checked(f.offset, P.PieceAt(p.file, f.offset)), r.out, None)
  {
    var piece := P.PieceAt(p.file, f.offset);
    assert p.coder.Decode(p.coder.Encode(piece)) == Some(piece);
    BoundsTestIsExact(f.offset, |piece|, |p.file|);
    hide InBounds;
  }

  lemma TakenParts(p: Plan, s: System, id: byte, f: Frame, s': System)
    requires ShapeOk(p, s) && DataOk(p, s) && ShapeOk(p, s') && PeerStep(p, s, id, R.Deliver(f), s')
    requires s'.wrote == s.wrote && s'.counted == s.counted && f.Data? && f.offset < |p.file|
    requires R.DataStep(Setup(p), s.rcv.gate, s.rcv.out, s.rcv.handlers[id], R.Deliver(f))
          == (R.Checked(f.offset, P.PieceAt(p.file, f.offset)), s.rcv.out, None)
    ensures SumOk(p, s') && SinkOk(p, s') && FlagsOk(p, s'.rcv) && Blameless(s'.rcv)
  {
    hide R.DataStep, SumTo, Landed, Enough, CursorsOk;
  }
}
