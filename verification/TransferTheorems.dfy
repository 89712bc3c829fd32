/** What holds over whole runs of a multi-connection transfer with an honest sender. */
module TransferTheorems {
  import opened Bytes
  import opened Frames
  import opened Pieces
  import opened Coders
  import opened Transfer
  import opened Coverage
  import opened TransferProofs
  import H = Handshake
  import P = Pipeline
  import R = MultiReceiver
  import HP = HandshakeProofs
  import PP = PipelineProofs
  import PT = PipelineTheorems
  import RP = ReceiverProofs
  import TS = TransferSteps
  import TR = TransferReceiving
  import TW = TransferWriting
  import TL = TransferLocal
  import SD = Shutdown

  lemma StepKeepsInv(p: Plan, s: System, e: Event, s': System)
    requires Inv(p, s) && Step(p, s, e, s')
    ensures Inv(p, s')
  {
    hide Inv, SendStep, PumpStep, HearStep, RouteStep, InstallStep, TakeStep, LocalStep;
    match e {
      case Send(x) => TS.SendKeeps(p, s, x, s');
      case Pump(x, reason) => TS.PumpKeeps(p, s, x, reason, s');
      case Hear => TS.HearKeeps(p, s, s');
      case Route(ok) => TS.RouteKeeps(p, s, ok, s');
      case Install(i, ok) => TR.InstallKeeps(p, s, i, ok, s');
      case Take(i) => TR.TakeKeeps(p, s, i, s');
      case Local(a) => LocalKeeps(p, s, a, s');
    }
  }

  lemma LocalKeeps(p: Plan, s: System, a: R.Action, s': System)
    requires Inv(p, s) && LocalStep(p, s, a, s')
    ensures Inv(p, s')
  {
    hide Inv, LocalStep;
    assert IsLocal(a) by { IsALocal(p, s, a, s'); }
    match a {
      case Negotiate(id, x) => TL.NegotiateKeeps(p, s, id, x, s');
      case Peer(id, x) => TW.PeerLocalKeeps(p, s, id, x, s');
      case Call(x) => TL.CallKeeps(p, s, x, s');
      case Hold(x) => TL.HoldKeeps(p, s, x, s');
    }
  }

  lemma IsALocal(p: Plan, s: System, a: R.Action, s': System)
    requires LocalStep(p, s, a, s')
    ensures IsLocal(a)
  {
  }

  lemma {:induction false} RunKeepsInv(p: Plan, run: seq<System>, t: nat)
    requires IsRun(p, run) && t < |run|
    ensures Inv(p, run[t])
  {
    hide Inv, Step, Init;
    if t == 0 {
      TS.InitInv(p, run[0]);
    } else {
      RunKeepsInv(p, run, t - 1);
      assert Next(p, run[t - 1], run[t - 1 + 1]);
      var e :| Step(p, run[t - 1], e, run[t]);
      StepKeepsInv(p, run[t - 1], e, run[t]);
    }
  }

  // ---- Striping is faithful ----

  /**
   * For every file, number of peers, codec and interleaving: if the transfer ends with a nil result,
   * the output is the file, byte for byte, and it is kept. Nothing is assumed about the hash.
   */
  lemma StripingIsFaithful(p: Plan, run: seq<System>, t: nat)
    requires IsRun(p, run) && t < |run| && run[t].rcv.gate.doneCloses == 1 && run[t].rcv.gate.result.None?
    ensures run[t].rcv.out.sink == p.file && !run[t].rcv.gate.removed
  {
    RunKeepsInv(p, run, t);
    var s := run[t];
    assert RP.GateOk(Setup(p), s.rcv.out.meta, s.rcv.gate);
    hide RP.Inv, PP.Inv, PeersOk, MetaOk;
    AllCounted(p, s);
  }

  /** Once all bytes are counted no DATA frame is left: none in flight, in hand, or yet to be sent. */
  lemma NoDataLeft(p: Plan, run: seq<System>, t: nat)
    requires IsRun(p, run) && t < |run| && run[t].rcv.out.allBytes && run[t].rcv.gate.result.None?
    ensures run[t].rcv.out.sink == p.file
    ensures forall i :: 0 <= i < p.n ==> i < |run[t].taken| && i < |run[t].pipe.sent| && run[t].taken[i] == |run[t].pipe.sent[i]|
    ensures forall id :: id in run[t].rcv.handlers ==> !run[t].rcv.handlers[id].turn.Checked?
    ensures forall e, s' :: P.Step(PipeConfig(p), run[t].pipe, e, s') ==> s'.sent == run[t].pipe.sent
  {
    RunKeepsInv(p, run, t);
    var s := run[t];
    AllCounted(p, s);
    forall id | id in s.rcv.handlers ensures !s.rcv.handlers[id].turn.Checked? {
      TW.HandlerReady(p, s, id);
      hide PP.Inv;
    }
    forall e, s' | P.Step(PipeConfig(p), s.pipe, e, s') ensures s'.sent == s.pipe.sent {
      LogsGrow(PipeConfig(p), s.pipe, e, s');
    }
  }

  /** After that the data channels stay silent for the rest of the run. */
  lemma {:induction false} ChannelsStaySilent(p: Plan, run: seq<System>, t: nat, u: nat)
    requires IsRun(p, run) && t <= u < |run| && run[t].rcv.out.allBytes && run[t].rcv.gate.result.None?
    ensures run[u].pipe.sent == run[t].pipe.sent
    decreases u
  {
    hide Inv, Step, Init;
    if t < u {
      ChannelsStaySilent(p, run, t, u - 1);
      RunKeepsInv(p, run, t);
      RunKeepsInv(p, run, u - 1);
      assert Next(p, run[u - 1], run[u - 1 + 1]);
      var e :| Step(p, run[u - 1], e, run[u]);
      StillSilent(p, run[t], run[u - 1], e, run[u]);
    }
  }

  lemma StillSilent(p: Plan, a: System, s: System, e: Event, s': System)
    requires Inv(p, a) && Healthy(a) && a.rcv.out.allBytes
    requires Inv(p, s) && s.pipe.sent == a.pipe.sent && Step(p, s, e, s')
    ensures s'.pipe.sent == s.pipe.sent
  {
    hide RP.Inv, PP.Inv, PeersOk, MetaOk, DataOk, R.Do, R.Can, R.TakeControl, R.DoPeer, R.CanPeer, H.Do, H.Can,
      P.Step, PP.OnTheWire;
    WireIsFull(p, a);
    SameWire(p, a.pipe, s.pipe);
    if e.Pump? { LogsGrow(PipeConfig(p), s.pipe, e.event, s'.pipe); }
  }

  lemma WireIsFull(p: Plan, s: System)
    requires Inv(p, s) && Healthy(s) && s.rcv.out.allBytes
    ensures PP.OnTheWire(PipeConfig(p), s.pipe) == |p.file|
  {
    hide RP.Inv, PP.Inv, PeersOk, MetaOk, CursorsOk, SumOk, SinkOk, PP.OnTheWire;
    AllCounted(p, s);
  }

  lemma SameWire(p: Plan, s: P.State, s': P.State)
    requires s'.sent == s.sent
    ensures PP.OnTheWire(PipeConfig(p), s') == PP.OnTheWire(PipeConfig(p), s)
  {
  }

  // ---- Causality across the channels ----

  /**
   * Against an honest sender the transfer never fails by blaming it. A handler reports a violation of
   * the protocol only after some other failure has already decided the result (cleanup takes the
   * decoders away, so frames that still arrive may look broken).
   */
  lemma NoProtocolErrors(p: Plan, run: seq<System>, t: nat)
    requires IsRun(p, run) && t < |run|
    ensures run[t].rcv.gate.result.Some? ==> !R.BlamesSender(run[t].rcv.gate.result.value)
    ensures run[t].rcv.protocolError ==> run[t].rcv.gate.result.Some?
  {
    RunKeepsInv(p, run, t);
  }

  /** Whoever takes DATA has METADATA, a file of the right size, and a decoder exactly when the codec is zstd. */
  lemma DecodersFollowCodec(p: Plan, run: seq<System>, t: nat, id: byte)
    requires IsRun(p, run) && t < |run| && id in run[t].rcv.handlers
    ensures run[t].rcv.out.meta == Some(Announced(p)) && |run[t].rcv.out.sink| == |p.file|
    ensures run[t].rcv.gate.result.None? && run[t].rcv.gate.cleanups == 0 ==>
              run[t].rcv.handlers[id].decoder == p.coder.Zstd?
  {
    RunKeepsInv(p, run, t);
    TR.HandlerMeans(p, run[t], id);
    if Healthy(run[t]) { TW.HandlerReady(p, run[t], id); }
  }

  /** Whatever the whole system does, the receiver takes a step of its own kind or stays as it is. */
  lemma ReceiverSteps(p: Plan, s: System, e: Event, s': System)
    requires |p.file| < TWO64 && Step(p, s, e, s')
    ensures s'.rcv == s.rcv || R.Next(Setup(p), s.rcv, s'.rcv)
  {
    hide R.TakeControl, R.DoPeer, R.CanPeer, H.Do, H.Can, P.Step;
    match e {
      case Route(ok) => assert s'.rcv == R.Do(Setup(p), s.rcv, R.Control(s.ctrl[s.routed], ok));
      case Install(i, ok) => assert s'.rcv == R.Do(Setup(p), s.rcv, R.Peer(i, R.Install(ok)));
      case Take(i) => assert s'.rcv == R.Do(Setup(p), s.rcv, R.Peer(i, R.Deliver(s.pipe.sent[i][s.taken[i]])));
      case _ =>
    }
  }

  // ---- The done gate ----

  lemma StepSettles(p: Plan, s: System, e: Event, s': System)
    requires Inv(p, s) && Step(p, s, e, s')
    ensures SD.Settled(s.rcv, s'.rcv)
  {
    ReceiverSteps(p, s, e, s');
    hide Step, RP.Inv, PP.Inv, PeersOk, MetaOk, DataOk, R.Can, R.Do, SD.Settled;
    if s'.rcv == s.rcv {
      SD.SettledSelf(Setup(p), s.rcv);
    } else {
      var a :| R.Can(s.rcv, a) && s'.rcv == R.Do(Setup(p), s.rcv, a);
      SD.StepSettles(Setup(p), s.rcv, a);
    }
  }

  lemma SettledChain(p: Plan, a: System, b: System, c: System)
    requires Inv(p, a) && SD.Settled(a.rcv, b.rcv) && SD.Settled(b.rcv, c.rcv)
    ensures SD.Settled(a.rcv, c.rcv)
  {
    hide RP.Inv, PP.Inv, PeersOk, MetaOk, DataOk, SD.Settled;
    SD.SettledChain(Setup(p), a.rcv, b.rcv, c.rcv);
  }

  lemma {:induction false} RunSettles(p: Plan, run: seq<System>, i: nat, j: nat)
    requires IsRun(p, run) && i <= j < |run|
    ensures SD.Settled(run[i].rcv, run[j].rcv)
    decreases j
  {
    hide Inv, Step, Init, SD.Settled;
    RunKeepsInv(p, run, i);
    if i < j {
      RunSettles(p, run, i, j - 1);
      RunKeepsInv(p, run, j - 1);
      assert Next(p, run[j - 1], run[j - 1 + 1]);
      var e :| Step(p, run[j - 1], e, run[j]);
      StepSettles(p, run[j - 1], e, run[j]);
      SettledChain(p, run[i], run[j - 1], run[j]);
    } else {
      SelfSettled(p, run[i]);
    }
  }

  lemma SelfSettled(p: Plan, s: System)
    requires Inv(p, s)
    ensures SD.Settled(s.rcv, s.rcv)
  {
    hide RP.Inv, PP.Inv, PeersOk, MetaOk, DataOk, SD.Settled;
    SD.SettledSelf(Setup(p), s.rcv);
  }

  /**
   * Once a verification has entered the gate only the output file can still fail the transfer, whatever
   * is closed, times out or breaks afterwards; and if that goes well too, the output is the file.
   */
  lemma VerifierDecides(p: Plan, run: seq<System>, i: nat, j: nat)
    requires IsRun(p, run) && i <= j < |run| && run[i].rcv.gate.at == R.Held(R.VerifySweep)
    ensures var r := run[j].rcv.gate.result; r.None? || r.value.SyncFailed? || r.value.HashReadFailed?
    ensures run[j].rcv.gate.doneCloses == 1 && run[j].rcv.gate.result.None? ==> run[j].rcv.out.sink == p.file
  {
    RunSettles(p, run, i, j);
    NoProtocolErrors(p, run, j);
    UndecidedYet(p, run, i);
    if run[j].rcv.gate.doneCloses == 1 && run[j].rcv.gate.result.None? { StripingIsFaithful(p, run, j); }
  }

  /** A verification that has just entered has decided nothing. */
  lemma UndecidedYet(p: Plan, run: seq<System>, i: nat)
    requires IsRun(p, run) && i < |run| && run[i].rcv.gate.at == R.Held(R.VerifySweep)
    ensures run[i].rcv.gate.result.None?
  {
    RunKeepsInv(p, run, i);
    assert RP.GateOk(Setup(p), run[i].rcv.out.meta, run[i].rcv.gate);
  }

  // ---- TRANSFER_COMPLETE ----

  /** The receiver has seen TRANSFER_COMPLETE, or verifies because of it. */
  predicate TakenUp(r: R.Receiver) { r.completeSeen || r.callers.verifiers != [] }

  ghost predicate CompleteOk(s: System) {
    && ((exists k :: 0 <= k < |s.ctrl| && s.ctrl[k].Complete?) ==> s.pipe.main.Completed?)
    && (TakenUp(s.rcv) ==> s.pipe.main.Completed?)
  }

  lemma StepKeepsComplete(p: Plan, s: System, e: Event, s': System)
    requires |p.file| < TWO64 && CompleteOk(s) && Step(p, s, e, s')
    ensures CompleteOk(s')
  {
    SeenAfter(p, s, e, s');
    CompleteStays(p, s, e, s');
    hide R.TakeControl, R.DoPeer, R.CanPeer, R.Do, R.Can, H.Do, H.Can, P.Step;
  }

  lemma CompleteStays(p: Plan, s: System, e: Event, s': System)
    requires |p.file| < TWO64 && Step(p, s, e, s')
    ensures s.pipe.main.Completed? ==> s'.pipe.main.Completed?
  {
    hide R.TakeControl, R.DoPeer, R.CanPeer, R.Do, R.Can, H.Do, H.Can, H.Hear, P.Step;
    if e.Pump? { PipeStays(PipeConfig(p), s.pipe, e.event, s'.pipe); }
  }

  lemma PipeStays(c: P.Config, s: P.State, e: P.Event, s': P.State)
    requires P.Step(c, s, e, s')
    ensures s.main.Completed? ==> s'.main.Completed?
  {
    hide P.Zeros, P.FrameFor, PieceLen;
  }

  lemma SeenAfter(p: Plan, s: System, e: Event, s': System)
    requires |p.file| < TWO64 && Step(p, s, e, s')
    ensures TakenUp(s'.rcv) && !TakenUp(s.rcv) ==> e.Route? && s.ctrl[s.routed].Complete?
  {
    hide R.TakeControl, R.Do, R.Can, R.DoPeer, R.CanPeer, H.Do, H.Can, P.Step;
    match e {
      case Route(ok) => SeenByRouting(s.rcv, s.ctrl[s.routed], ok);
      case Install(i, ok) => SeenByPeer(p, s.rcv, i, R.Install(ok));
      case Take(i) => SeenByPeer(p, s.rcv, i, R.Deliver(s.pipe.sent[i][s.taken[i]]));
      case Local(a) => SeenLocally(p, s.rcv, a);
      case _ =>
    }
  }

  lemma SeenByRouting(r: R.Receiver, f: Frame, ok: bool)
    ensures TakenUp(R.TakeControl(r, f, ok)) ==> TakenUp(r) || f.Complete?
  {
    hide R.MetadataStep;
  }

  lemma SeenByPeer(p: Plan, r: R.Receiver, id: byte, a: R.DataAct)
    requires R.CanPeer(r, id, a)
    ensures TakenUp(R.DoPeer(Setup(p), r, id, a)) == TakenUp(r)
  {
    hide R.DataStep;
  }

  lemma SeenLocally(p: Plan, r: R.Receiver, a: R.Action)
    requires R.Can(r, a) && !a.Control?
    ensures TakenUp(R.Do(Setup(p), r, a)) == TakenUp(r)
  {
    hide R.HoldStep, R.CanHold, R.DoNegotiate, R.CanNegotiate, R.DoCall, R.CanCall, R.DoPeer, R.CanPeer, TakenUp;
    match a {
      case Negotiate(id, x) => SeenByNegotiator(r, id, x);
      case Peer(id, x) => SeenByPeer(p, r, id, x);
      case Call(x) => SeenByCall(r, x);
      case Hold(x) => SeenByHolder(p, r, x);
    }
  }

  lemma SeenByNegotiator(r: R.Receiver, id: byte, a: R.NegAct)
    requires id in r.negs && R.CanNegotiate(r.gate, r.negs[id], a)
    ensures TakenUp(R.DoNegotiate(r, id, a)) == TakenUp(r)
  {
    hide R.NegStep;
  }

  lemma SeenByCall(r: R.Receiver, a: R.CallAct)
    requires R.CanCall(r, a)
    ensures TakenUp(R.DoCall(r, a)) == TakenUp(r)
  {
    hide R.VerifierNext;
  }

  lemma SeenByHolder(p: Plan, r: R.Receiver, a: R.HoldAct)
    requires R.CanHold(r.out, r.gate, a)
    ensures TakenUp(R.DoHold(Setup(p), r, a)) == TakenUp(r)
  {
    hide R.HoldStep;
  }

  lemma {:induction false} RunKeepsComplete(p: Plan, run: seq<System>, t: nat)
    requires IsRun(p, run) && t < |run|
    ensures CompleteOk(run[t])
  {
    hide Step;
    if t > 0 {
      RunKeepsComplete(p, run, t - 1);
      assert Next(p, run[t - 1], run[t - 1 + 1]);
      var e :| Step(p, run[t - 1], e, run[t]);
      StepKeepsComplete(p, run[t - 1], e, run[t]);
    }
  }

  /**
   * A TRANSFER_COMPLETE that the receiver has handled is true: the whole file was read, every piece of
   * it was sent exactly once, nothing was dropped, and the sender's byte counter equals the size.
   */
  lemma CompleteIsTruthful(p: Plan, run: seq<System>, t: nat)
    requires IsRun(p, run) && t < |run| && run[t].rcv.completeSeen
    ensures PT.Truthful(PipeConfig(p), run[t].pipe)
  {
    RunKeepsComplete(p, run, t);
    RunKeepsInv(p, run, t);
    hide PP.Inv, RP.Inv;
    PT.InvTruthful(PipeConfig(p), run[t].pipe);
  }

  // ---- The handshake ----

  /** The parts of the invariant that the handshake is about. */
  lemma PeersPart(p: Plan, s: System)
    requires Inv(p, s)
    ensures PeersOk(p, s) && MetaOk(p, s) && RP.AnswersOk(s.rcv) && RP.SizeOk(s.rcv) && 0 < p.n <= 0x100
  {
    hide PP.Inv, PeersOk, MetaOk, DataOk, RP.AnswersOk, RP.SizeOk;
  }

  /** answerCh, with room for n answers, never overflows, and no answer is for an unknown peer. */
  lemma AnswersFindTheirPeers(p: Plan, run: seq<System>, t: nat)
    requires IsRun(p, run) && t < |run|
    ensures !run[t].snd.overflow && !run[t].snd.unknown && |run[t].snd.queue| <= p.n
  {
    hide Inv, IsRun, MetaOk, RP.AnswersOk, RP.SizeOk, HP.LogOk, HP.NegsMatch;
    RunKeepsInv(p, run, t);
    PeersPart(p, run[t]);
    HP.FewAnswers(p.n, run[t].rcv.answers);
  }

  /** At most one negotiation, hence at most one answer, a peer: only for ids the sender has offered, with its offer. */
  lemma OneNegotiationEach(p: Plan, run: seq<System>, t: nat)
    requires IsRun(p, run) && t < |run|
    ensures forall id :: id in run[t].rcv.negs ==>
              id < p.n && id < |run[t].snd.offerers| && run[t].snd.offerers[id].Offered?
              && run[t].rcv.negs[id].offer == run[t].snd.offerers[id].sdp
    ensures HP.Distinct(p.n, run[t].rcv.answers) && |run[t].rcv.answers| <= p.n
  {
    hide Inv, IsRun, MetaOk, RP.AnswersOk, RP.SizeOk, HP.LogOk;
    RunKeepsInv(p, run, t);
    PeersPart(p, run[t]);
    HP.FewAnswers(p.n, run[t].rcv.answers);
  }

  /**
   * The select loop is bounded by the peers it waits for: each answer taken leaves one peer less
   * waiting, and the answers taken and the peers waiting always make up all n.
   */
  lemma LoopIsBounded(p: Plan, run: seq<System>, t: nat, ok: bool)
    requires IsRun(p, run) && t < |run| && HP.Built(run[t].snd)
    ensures |run[t].snd.waiting.Keys| + HP.Used(run[t].snd, run[t].heard) == p.n
    ensures H.Can(run[t].snd, H.TakeAnswer(ok)) ==>
              var d := H.Do(p.n, run[t].snd, H.TakeAnswer(ok), |run[t].ctrl|);
              |d.waiting.Keys| == |run[t].snd.waiting.Keys| - 1 && !d.unknown
  {
    hide Inv, IsRun, MetaOk, RP.AnswersOk, RP.SizeOk, HP.LogOk, HP.NegsMatch;
    RunKeepsInv(p, run, t);
    var s := run[t];
    PeersPart(p, s);
    if H.Can(s.snd, H.TakeAnswer(ok)) {
      HP.TakeAnswerFlows(p.n, s.snd, ok, |s.ctrl|, s.rcv.answers, s.heard);
    }
  }

  /** Peer i is connected: it accepted one answer, the one its own offer got, and its channel is open. */
  ghost predicate Connected(s: System, i: byte) {
    && i < |s.snd.accepted| && i < |s.snd.offerers| && i < |s.snd.isOpen| && s.snd.isOpen[i]
    && i in s.rcv.negs && s.rcv.negs[i].phase.Answered?
    && s.snd.accepted[i] == [s.rcv.negs[i].phase.answer]
    && s.snd.offerers[i].Offered? && s.rcv.negs[i].offer == s.snd.offerers[i].sdp
  }

  /** Where an accepted answer comes from. */
  lemma AcceptedFrom(p: Plan, s: System, id: byte)
    requires |p.file| < TWO64 && PeersOk(p, s) && RP.AnswersOk(s.rcv) && HP.Built(s.snd) && id < p.n
             && id !in s.snd.waiting
    ensures id in s.rcv.negs && s.rcv.negs[id].phase.Answered? && id < |s.snd.accepted|
    ensures s.snd.accepted[id] == [s.rcv.negs[id].phase.answer] || HP.Ended(s.snd.stage)
  {
    hide HP.LogOk, HP.NegsMatch, HP.AnsweredBy, HP.Distinct;
    var used := HP.Used(s.snd, s.heard);
    assert HP.AnsweredBy(s.rcv.answers, used, id);
    var k := AnswerOf(s.rcv.answers, used, id);
    assert HP.Applied(s.snd, s.rcv.answers[k], k == used - 1);
    assert s.rcv.negs[s.rcv.answers[k].id].phase == R.Answered(s.rcv.answers[k].sdp, k);
  }

  lemma AnswerOf(answers: seq<Frame>, used: nat, id: byte) returns (k: nat)
    requires used <= |answers| && HP.AnsweredBy(answers, used, id)
    ensures k < used && answers[k].Answer? && answers[k].id == id
  {
    k :| 0 <= k < used && answers[k].Answer? && answers[k].id == id;
  }

  /** negotiatePeers succeeds only when every peer accepted exactly its own answer, once, and is open. */
  lemma SuccessMeansConnected(p: Plan, run: seq<System>, t: nat, i: byte)
    requires IsRun(p, run) && t < |run| && run[t].snd.stage.Running? && i < p.n
    ensures Connected(run[t], i)
  {
    hide Inv, IsRun, MetaOk, RP.AnswersOk, RP.SizeOk, HP.LogOk;
    RunKeepsInv(p, run, t);
    PeersPart(p, run[t]);
    AcceptedFrom(p, run[t], i);
  }

  /** No data channel opens before the receiver has handled METADATA, although they are different channels. */
  lemma OpenAfterMetadata(p: Plan, run: seq<System>, t: nat, i: nat)
    requires IsRun(p, run) && t < |run| && i < |run[t].snd.accepted| && run[t].snd.accepted[i] != []
    ensures run[t].routed > 0 && run[t].rcv.out.meta == Some(Announced(p)) && run[t].rcv.out.sized
  {
    hide Inv, IsRun, RP.AnswersOk, HP.LogOk;
    RunKeepsInv(p, run, t);
    PeersPart(p, run[t]);
    AcceptedFrom(p, run[t], i);
  }

  /** Every data channel that is open at the receiver is that of a peer whose answer the sender has accepted. */
  ghost predicate OpenedBySender(s: System) {
    forall id :: id in s.rcv.handlers ==> id < |s.snd.accepted| && s.snd.accepted[id] != []
  }

  lemma StepKeepsOpened(p: Plan, s: System, e: Event, s': System)
    requires Inv(p, s) && Step(p, s, e, s') && OpenedBySender(s)
    ensures OpenedBySender(s')
  {
    hide Inv, R.TakeControl, R.DoPeer, R.CanPeer, R.Do, R.Can, H.Do, H.Can, H.Hear, P.Step;
    match e {
      case Send(x) =>
        PeersPart(p, s);
        AcceptedGrows(p.n, s.snd, x, |s.ctrl|);
      case Hear => HearAccepts(p.n, s.snd, s.rcv.answers[s.heard].id, s.rcv.answers[s.heard].sdp);
      case Route(ok) => RP.ControlFrame(s.rcv, s.ctrl[s.routed], ok);
      case Install(i, ok) => RP.PeerFrame(Setup(p), s.rcv, i, R.Install(ok));
      case Take(i) => PeerHandlers(p, s.rcv, i, R.Deliver(s.pipe.sent[i][s.taken[i]]));
      case Local(a) => HandlersOf(p, s.rcv, a);
      case _ =>
    }
  }

  lemma AcceptedGrows(n: nat, s: H.Sender, e: H.Step, sent: nat)
    requires HP.ShapeOk(n, s) && H.Can(s, e)
    ensures var d := H.Do(n, s, e, sent);
            |s.accepted| <= |d.accepted|
            && forall i :: 0 <= i < |s.accepted| && s.accepted[i] != [] ==> d.accepted[i] != []
  {
    hide H.PeersById;
  }

  lemma HearAccepts(n: nat, s: H.Sender, id: byte, sdp: bytes)
    ensures H.Hear(n, s, id, sdp).accepted == s.accepted
  {
  }

  lemma HandlersOf(p: Plan, r: R.Receiver, a: R.Action)
    requires R.Can(r, a) && !a.Control? && !(a.Peer? && a.data.Install?)
    ensures R.Do(Setup(p), r, a).handlers.Keys == r.handlers.Keys
  {
    hide R.DoNegotiate, R.CanNegotiate, R.DoCall, R.CanCall, R.HoldStep, R.CanHold, R.DoPeer, R.CanPeer;
    match a {
      case Negotiate(id, x) => RP.NegotiateFrame(r, id, x);
      case Peer(id, x) => PeerHandlers(p, r, id, x);
      case Call(x) => RP.CallFrame(r, x);
      case Hold(x) =>
    }
  }

  lemma PeerHandlers(p: Plan, r: R.Receiver, id: byte, a: R.DataAct)
    requires R.CanPeer(r, id, a) && !a.Install?
    ensures R.DoPeer(Setup(p), r, id, a).handlers.Keys == r.handlers.Keys
  {
    hide R.DataStep;
  }

  /** In every run data channels open only after their peer's answer has been accepted. */
  lemma {:induction false} ChannelsAfterAnswers(p: Plan, run: seq<System>, t: nat)
    requires IsRun(p, run) && t < |run|
    ensures OpenedBySender(run[t])
  {
    hide Inv, Step;
    if t > 0 {
      ChannelsAfterAnswers(p, run, t - 1);
      RunKeepsInv(p, run, t - 1);
      assert Next(p, run[t - 1], run[t - 1 + 1]);
      var e :| Step(p, run[t - 1], e, run[t]);
      StepKeepsOpened(p, run[t - 1], e, run[t]);
    }
  }
}
