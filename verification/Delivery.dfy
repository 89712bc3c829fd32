/**
 * Whole transfers in which the environment does its part: what their runs keep. Ordinary steps are those
 * the routines of both sides take on their own, with every outcome of the environment good; notices are
 * how the receiver learns that the sender has closed its channels after TRANSFER_COMPLETE.
 */
module Delivery {
  import opened Bytes
  import opened Frames
  import opened Pieces
  import opened Coders
  import opened CoreSpec
  import opened Transfer
  import opened Coverage
  import opened TransferProofs
  import H = Handshake
  import P = Pipeline
  import R = MultiReceiver
  import HP = HandshakeProofs
  import PP = PipelineProofs
  import RP = ReceiverProofs
  import TS = TransferSteps
  import TR = TransferReceiving
  import TW = TransferWriting
  import TL = TransferLocal
  import TT = TransferTheorems

  predicate OrdinarySend(e: H.Step) {
    match e
    case SendMetadata(ok) => ok
    case BuildPeers(ok) => ok
    case Make(_, _) => true
    case SendOffer(_, ok) => ok
    case TakeAnswer(ok) => ok
    case LoopEnds => true
    case OffersDone => true
    case ChannelOpens(_) => true
    case SeeOpen => true
    case _ => false
  }

  predicate OrdinaryLocal(a: R.Action) {
    match a
    case Negotiate(_, n) =>
      n == R.Build(true) || n.Join? || n.Accept? || n == R.Check(false) || n == R.SendAnswer(true) || n.CloseOwn?
    case Peer(_, d) => d == R.Write(Written) || d.Count? || d.Signal?
    case Call(c) => (c.Verify? && !c.step.TimeOut?) || c.EnterFail? || c.SkipFail?
    case Hold(h) => h != R.Sync(false) && h != R.ReadBlock(false)
    case Control(_, _) => false
  }

  predicate Ordinary(e: Transfer.Event) {
    match e
    case Send(x) => OrdinarySend(x)
    case Pump(x, _) => !P.IsFault(x)
    case Hear => true
    case Route(ok) => ok
    case Install(_, ok) => ok
    case Take(_) => true
    case Local(a) => OrdinaryLocal(a)
  }

  // ---- Notices ----

  /** What tells the receiver that a channel has been closed: its watcher, and the end of its frame loop. */
  datatype Notice = SeeControl | EndControl | SeePeer(i: byte) | EndPeer(i: byte, reason: Option<bytes>)

  function ActionOf(x: Notice): R.Action {
    match x
    case SeeControl => R.Call(R.ControlClosed)
    case EndControl => R.Call(R.ControlEnds)
    case SeePeer(i) => R.Peer(i, R.Closed)
    case EndPeer(i, reason) => R.Peer(i, R.Breaks(reason))
  }

  /** Channels are closed after TRANSFER_COMPLETE was sent, and a frame loop reads its channel to the end first. */
  predicate MayBeTold(s: System, x: Notice) {
    && s.pipe.main.Completed?
    && (x.EndControl? ==> s.routed >= |s.ctrl|)
    && (x.EndPeer? ==> x.i < |s.taken| && x.i < |s.pipe.sent| && s.taken[x.i] >= |s.pipe.sent[x.i]|)
  }

  /** The errors with which the closing of a channel can fail a transfer. */
  predicate CloseError(e: CoreError) { e.ClosedEarly? || e.Other? }

  // ---- What such runs keep ----

  ghost predicate SmoothSender(s: H.Sender) {
    !HP.Ended(s.stage) && s.errors == 0 && forall i :: 0 <= i < |s.offerers| ==> !s.offerers[i].Gone?
  }

  ghost predicate SmoothPipe(s: P.State) {
    && !s.cancelled && !s.main.Aborted? && !s.main.CompleteFailed?
    && (s.prod.Closing? || s.prod.Closed? ==> !s.prod.failed) && s.prodErr != Some(true)
    && forall i :: 0 <= i < |s.workers| ==> s.workers[i] != P.Exit(false)
  }

  predicate OnItsWay(p: R.Phase) {
    p.Building? || p.Built? || p.Joined? || p.Accepted? || p.Cleared? || p.Answered?
  }

  ghost predicate SmoothReceiver(r: R.Receiver) {
    && r.gate.result.None? && (forall e :: e in r.callers.fails ==> CloseError(e))
    && (forall id :: id in r.negs ==> OnItsWay(r.negs[id].phase))
    && (forall k :: 0 <= k < |r.callers.verifiers| && r.callers.verifiers[k].Returned? ==> !r.gate.at.Free?)
  }

  /** Every answered negotiation's answer is on the control channel. */
  ghost predicate AnswersSent(r: R.Receiver) {
    forall id :: id in r.negs && r.negs[id].phase.Answered? ==>
      r.negs[id].phase.pos < |r.answers| && r.answers[r.negs[id].phase.pos] == Answer(id, r.negs[id].phase.answer)
  }

  /** Every offer the control loop has taken has its negotiation. */
  ghost predicate OffersRouted(s: System) {
    forall i: byte :: i < |s.snd.offerers| && s.snd.offerers[i].Offered? && s.snd.offerers[i].pos < s.routed ==> i in s.rcv.negs
  }

  ghost predicate HasComplete(ctrl: seq<Frame>, n: nat)
    requires n <= |ctrl|
  {
    exists k :: 0 <= k < n && ctrl[k].Complete?
  }

  /** TRANSFER_COMPLETE follows the pipeline's end, and starts a verification when it is taken. */
  ghost predicate CompleteLinks(s: System)
    requires s.routed <= |s.ctrl|
  {
    && (s.pipe.main.Completed? ==> HasComplete(s.ctrl, |s.ctrl|))
    && (HasComplete(s.ctrl, s.routed) ==> s.rcv.callers.verifiers != [])
    && (HasComplete(s.ctrl, |s.ctrl|) || s.rcv.callers.verifiers != [] || !s.rcv.gate.at.Free? ==> s.snd.stage.Running?)
    && (forall k :: 0 <= k < |s.ctrl| ==> !s.ctrl[k].Abort?)
  }

  /** When the bytes are all counted, allBytesCh is closed or about to be. */
  ghost predicate Signalled(p: Plan, r: R.Receiver) {
    r.out.meta.Some? && r.out.bytesWritten >= |p.file| ==>
      r.out.allBytes || exists id :: id in r.handlers && r.handlers[id].turn == R.Counted(true)
  }

  /** Frame loops have ended only at the end of their channels. */
  ghost predicate LoopsOk(s: System) {
    && (!s.rcv.routing ==> s.pipe.main.Completed? && s.routed >= |s.ctrl|)
    && (forall i :: i in s.rcv.handlers && s.rcv.handlers[i].turn.Stopped? ==>
          s.pipe.main.Completed? && i < |s.counted| && i < |s.pipe.sent| && s.counted[i] == |s.pipe.sent[i]|)
  }

  /** Nobody new calls fail. */
  predicate NoNewFails(s: System, s': System) { s'.rcv.callers.fails <= s.rcv.callers.fails }

  /** Nothing has failed; at most the closing of a channel is about to be reported. */
  ghost predicate Smooth(p: Plan, s: System) {
    && SmoothSender(s.snd) && SmoothPipe(s.pipe) && SmoothReceiver(s.rcv) && AnswersSent(s.rcv)
    && OffersRouted(s) && s.routed <= |s.ctrl| && CompleteLinks(s) && Signalled(p, s.rcv) && LoopsOk(s)
  }

  lemma InitSmooth(p: Plan, s: System)
    requires ValidPlan(p) && Init(p, s)
    ensures Smooth(p, s)
  {
  }

  // ---- The sender ----

  lemma SendSmooth(p: Plan, s: System, e: H.Step, s': System)
    requires Inv(p, s) && Smooth(p, s) && OrdinarySend(e) && SendStep(p, s, e, s')
    ensures Smooth(p, s') && NoNewFails(s, s')
  {
    hide Inv, RP.Inv, PP.Inv, SmoothPipe, SmoothReceiver, AnswersSent, Signalled, CompleteLinks, OffersRouted;
    TT.PeersPart(p, s);
    hide PeersOk, MetaOk;
    SenderSmooth(p, s, e, s');
    CtrlGrows(p, s, e, s');
    OffersStayRouted(p, s, e, s');
    if s.pipe.main.Completed? {
      CompletedRuns(s);
      RunningSendsNothing(p, s, e);
    }
  }

  lemma CompletedRuns(s: System)
    requires s.routed <= |s.ctrl| && CompleteLinks(s) && s.pipe.main.Completed?
    ensures s.snd.stage.Running?
  {
  }

  /** Once the pipeline runs, every offer has been sent. */
  lemma RunningSendsNothing(p: Plan, s: System, e: H.Step)
    requires |p.file| < TWO64 && PeersOk(p, s) && RP.AnswersOk(s.rcv) && p.n <= 0x100 && s.snd.stage.Running?
    requires H.Can(s.snd, e) && OrdinarySend(e)
    ensures H.Sends(Announced(p), s.snd, e) == []
  {
    hide HP.LogOk, HP.QueueOk, HP.WaitingOk, HP.Distinct, RP.AnswersOk;
    if e.SendOffer? {
      var id: byte := e.i;
      TT.AcceptedFrom(p, s, id);
    }
  }

  /** What the ends of the frame loops are about is untouched. */
  lemma LoopsSame(s: System, s': System)
    requires LoopsOk(s) && s'.pipe == s.pipe && s'.counted == s.counted
    requires s'.ctrl == s.ctrl && s'.routed == s.routed && s'.rcv.routing == s.rcv.routing
    requires s'.rcv.handlers.Keys == s.rcv.handlers.Keys
    requires forall i :: i in s.rcv.handlers ==> s'.rcv.handlers[i].turn == s.rcv.handlers[i].turn
    ensures LoopsOk(s')
  {
    forall i | i in s'.rcv.handlers ensures i in s.rcv.handlers { assert i in s'.rcv.handlers.Keys; }
  }

  /** Only the handler of peer id moves, and it does not end. */
  lemma LoopsMove(s: System, s': System, id: byte)
    requires LoopsOk(s) && s'.pipe == s.pipe && |s'.counted| == |s.counted|
    requires forall i :: 0 <= i < |s.counted| && i != id ==> s'.counted[i] == s.counted[i]
    requires s'.ctrl == s.ctrl && s'.routed == s.routed && s'.rcv.routing == s.rcv.routing
    requires forall k :: k != id && k in s'.rcv.handlers ==> k in s.rcv.handlers && s'.rcv.handlers[k] == s.rcv.handlers[k]
    requires id in s'.rcv.handlers ==> !s'.rcv.handlers[id].turn.Stopped?
    ensures LoopsOk(s')
  {
  }

  lemma SenderSmooth(p: Plan, s: System, e: H.Step, s': System)
    requires |p.file| < TWO64 && PeersOk(p, s) && SmoothSender(s.snd) && OrdinarySend(e) && SendStep(p, s, e, s')
    ensures SmoothSender(s'.snd) && (s.snd.stage.Running? ==> s'.snd.stage.Running?)
    ensures forall k :: 0 <= k < |H.Sends(Announced(p), s.snd, e)| ==>
              !H.Sends(Announced(p), s.snd, e)[k].Abort? && !H.Sends(Announced(p), s.snd, e)[k].Complete?
  {
    hide HP.LogOk, HP.NegsMatch, H.PeersById;
  }

  lemma CtrlGrows(p: Plan, s: System, e: H.Step, s': System)
    requires |p.file| < TWO64 && SendStep(p, s, e, s') && s.routed <= |s.ctrl| && CompleteLinks(s)
    requires s.snd.stage.Running? ==> s'.snd.stage.Running?
    requires forall k :: 0 <= k < |H.Sends(Announced(p), s.snd, e)| ==>
               !H.Sends(Announced(p), s.snd, e)[k].Abort? && !H.Sends(Announced(p), s.snd, e)[k].Complete?
    ensures CompleteLinks(s')
  {
    var more := H.Sends(Announced(p), s.snd, e);
    hide H.Do, H.Can, H.Sends, HasComplete;
    AppendKeeps(s.ctrl, more, |s.ctrl + more|);
    AppendKeeps(s.ctrl, more, s.routed);
  }

  /** Frames other than TRANSFER_COMPLETE and ABORT change nothing about where those are. */
  lemma AppendKeeps(ctrl: seq<Frame>, more: seq<Frame>, n: nat)
    requires n <= |ctrl + more| && forall k :: 0 <= k < |more| ==> !more[k].Abort? && !more[k].Complete?
    ensures HasComplete(ctrl + more, n) <==> HasComplete(ctrl, if n < |ctrl| then n else |ctrl|)
    ensures (forall k :: 0 <= k < |ctrl| ==> !ctrl[k].Abort?) ==> forall k :: 0 <= k < |ctrl + more| ==> !(ctrl + more)[k].Abort?
  {
    var m := if n < |ctrl| then n else |ctrl|;
    assert forall j :: |ctrl| <= j < |ctrl + more| ==> (ctrl + more)[j] == more[j - |ctrl|];
    if HasComplete(ctrl + more, n) {
      var k :| 0 <= k < n && (ctrl + more)[k].Complete?;
      assert ctrl[k].Complete?;
    }
    if HasComplete(ctrl, m) {
      var k :| 0 <= k < m && ctrl[k].Complete?;
      assert (ctrl + more)[k].Complete?;
    }
  }

  lemma OffersStayRouted(p: Plan, s: System, e: H.Step, s': System)
    requires |p.file| < TWO64 && SendStep(p, s, e, s') && s.routed <= |s.ctrl| && OffersRouted(s)
    ensures OffersRouted(s')
  {
    hide H.PeersById;
  }

  // ---- The pipeline and the answers ----

  lemma PumpSmooth(p: Plan, s: System, e: P.Event, reason: Option<bytes>, s': System)
    requires Inv(p, s) && Smooth(p, s) && !P.IsFault(e) && PumpStep(p, s, e, reason, s')
    ensures Smooth(p, s') && NoNewFails(s, s')
  {
    hide RP.Inv, PeersOk, MetaOk, DataOk, SmoothReceiver, SmoothSender, AnswersSent, Signalled, CompleteLinks,
      P.Step, PP.Inv;
    PipeSmooth(p, s.pipe, e, s'.pipe);
    PumpLinks(p, s, reason, s');
    if s.pipe.main.Completed? { CompletedIsQuiet(p, s.pipe, e, s'.pipe, reason); }
  }

  /** A completed pipeline sends nothing more. */
  lemma CompletedIsQuiet(p: Plan, s: P.State, e: P.Event, s': P.State, reason: Option<bytes>)
    requires PP.Inv(PipeConfig(p), s) && P.Step(PipeConfig(p), s, e, s') && s.main.Completed?
    ensures s'.sent == s.sent && PipeSends(s, s', reason) == []
  {
    hide PP.Inv, P.Step;
    CompletedMeans(PipeConfig(p), s);
    StepSends(PipeConfig(p), s, e, s');
    QuietStep(PipeConfig(p), s, e, s');
  }

  lemma CompletedMeans(c: P.Config, s: P.State)
    requires PP.Inv(c, s) && s.main.Completed?
    ensures |s.workers| == |s.sent| && forall i :: 0 <= i < |s.workers| ==> s.workers[i].Exit?
  {
    hide PP.OneOwner, PP.OnePlace, PP.Contents, PP.BytesAccounted, PP.LossMeansFailure, PP.ProdPhase;
  }

  lemma QuietStep(c: P.Config, s: P.State, e: P.Event, s': P.State)
    requires P.Step(c, s, e, s') && s.main.Completed? && forall i :: 0 <= i < |s.workers| ==> s.workers[i].Exit?
    ensures s'.sent == s.sent && s'.main.Completed?
  {
    hide P.Zeros, P.FrameFor, PieceLen;
  }

  lemma PipeSmooth(p: Plan, s: P.State, e: P.Event, s': P.State)
    requires PP.Inv(PipeConfig(p), s) && SmoothPipe(s) && !P.IsFault(e) && P.Step(PipeConfig(p), s, e, s')
    ensures SmoothPipe(s') && (s.main.Completed? ==> s'.main.Completed?)
  {
    assert PP.MainPhase(s) && PP.ProdPhase(|p.file|, s);
    hide PP.Inv, P.ProducerStep, P.WorkerStep, P.MainStep, SmoothPipe, PP.MainPhase, PP.ProdPhase;
    if P.ProducerStep(PipeConfig(p), s, e, s') {
      ProducerSmooth(p, s, e, s');
    } else if P.WorkerStep(PipeConfig(p), s, P.Actor(e, |s.workers|), e, s') {
      WorkerSmooth(p, s, P.Actor(e, |s.workers|), e, s');
    } else {
      MainSmooth(p, s, e, s');
    }
  }

  lemma ProducerSmooth(p: Plan, s: P.State, e: P.Event, s': P.State)
    requires SmoothPipe(s) && !P.IsFault(e) && P.ProducerStep(PipeConfig(p), s, e, s')
    ensures SmoothPipe(s') && s'.main == s.main
  {
    hide P.Zeros, PieceLen;
  }

  lemma WorkerSmooth(p: Plan, s: P.State, i: nat, e: P.Event, s': P.State)
    requires SmoothPipe(s) && !P.IsFault(e) && P.WorkerStep(PipeConfig(p), s, i, e, s')
    ensures SmoothPipe(s') && s'.main == s.main
  {
    hide P.FrameFor;
  }

  lemma MainSmooth(p: Plan, s: P.State, e: P.Event, s': P.State)
    requires PP.MainPhase(s) && SmoothPipe(s) && !P.IsFault(e) && P.MainStep(s, e, s')
    ensures SmoothPipe(s') && (s.main.Completed? ==> s'.main.Completed?)
  {
  }

  lemma PumpLinks(p: Plan, s: System, reason: Option<bytes>, s': System)
    requires s.routed <= |s.ctrl| && CompleteLinks(s) && s.snd.stage.Running?
    requires s'.ctrl == s.ctrl + PipeSends(s.pipe, s'.pipe, reason) && s' == s.(pipe := s'.pipe, ctrl := s'.ctrl)
    requires SmoothPipe(s'.pipe) && (s.pipe.main.Completed? ==> s'.pipe.main.Completed?)
    ensures CompleteLinks(s')
  {
    var more := PipeSends(s.pipe, s'.pipe, reason);
    if s'.pipe.main.Completed? && !s.pipe.main.Completed? {
      assert s'.ctrl[|s.ctrl|].Complete?;
    }
    if HasComplete(s.ctrl, |s.ctrl|) {
      var k :| 0 <= k < |s.ctrl| && s.ctrl[k].Complete?;
      assert s'.ctrl[k].Complete?;
    }
    if HasComplete(s'.ctrl, s.routed) {
      var k :| 0 <= k < s.routed && s'.ctrl[k].Complete?;
      assert s.ctrl[k].Complete?;
    }
  }

  lemma HearSmooth(p: Plan, s: System, s': System)
    requires Inv(p, s) && Smooth(p, s) && HearStep(p, s, s')
    ensures Smooth(p, s') && NoNewFails(s, s')
  {
    hide Inv, SmoothReceiver, SmoothPipe, AnswersSent, Signalled, HasComplete;
  }

  // ---- The control loop ----

  lemma RouteSmooth(p: Plan, s: System, s': System)
    requires |p.file| < TWO63 && Inv(p, s) && Smooth(p, s) && RouteStep(s, true, s')
    ensures Smooth(p, s') && NoNewFails(s, s')
  {
    var f := s.ctrl[s.routed];
    RouteFacts(p, s);
    hide Inv, RP.Inv, PP.Inv, SmoothSender, SmoothPipe, R.TakeControl;
    RP.ControlFrame(s.rcv, f, true);
    RouteReceiver(p, s.rcv, f);
    RouteLinks(p, s, s');
    RouteLoops(s, s');
  }

  lemma RouteLoops(s: System, s': System)
    requires LoopsOk(s) && s.rcv.routing && s'.rcv.routing && s'.rcv.handlers == s.rcv.handlers
    requires s'.pipe == s.pipe && s'.counted == s.counted
    ensures LoopsOk(s')
  {
  }

  /** What a frame finds when it is taken in an ordinary run. */
  lemma RouteFacts(p: Plan, s: System)
    requires Inv(p, s) && Smooth(p, s) && s.routed < |s.ctrl|
    ensures var f := s.ctrl[s.routed];
            && ((f.Meta? && f.meta == Announced(p) && s.rcv.out.meta.None? && s.rcv.gate.fileOpen
                 && s.rcv.out.bytesWritten == 0)
                || (f.Offer? && f.id !in s.rcv.negs) || (f.Complete? && s.rcv.out.meta.Some?))
            && (f.Offer? ==> f.id < |s.snd.offerers| && s.snd.offerers[f.id] == H.Offered(f.sdp, s.routed))
  {
    var f := s.ctrl[s.routed];
    assert HP.CtrlOk(Announced(p), s.snd, s.routed, f);
    if f.Offer? { HP.OfferIsFresh(Announced(p), s.snd, s.ctrl, s.rcv.negs, s.routed); }
    if f.Meta? { GateUntaken(p, s); }
  }

  lemma GateUntaken(p: Plan, s: System)
    requires Inv(p, s) && Healthy(s) && s.routed == 0
    ensures s.rcv.gate.fileOpen && s.rcv.out.bytesWritten == 0
  {
    assert RP.SizeOk(s.rcv) && RP.HandlersOk(s.rcv) && RP.GateOk(Setup(p), s.rcv.out.meta, s.rcv.gate);
    assert s.rcv.handlers == map[];
    TS.NothingTaken(p, s);
    hide RP.Inv, PP.Inv, PeersOk, SinkOk;
    SumZero(s.pipe.sent, s.counted, p.n, |p.file|);
    if s.rcv.gate.cleanups != 0 { TR.CleanOnceSwept(Setup(p), s.rcv.out.meta, s.rcv.gate); }
  }

  lemma RouteReceiver(p: Plan, r: R.Receiver, f: Frame)
    requires |p.file| < TWO63 && SmoothReceiver(r) && AnswersSent(r) && Signalled(p, r)
    requires (f.Meta? && f.meta == Announced(p) && r.out.meta.None? && r.gate.fileOpen && r.out.bytesWritten == 0)
             || (f.Offer? && f.id !in r.negs) || (f.Complete? && r.out.meta.Some?)
    ensures var d := R.TakeControl(r, f, true);
            && SmoothReceiver(d) && AnswersSent(d) && Signalled(p, d) && d.gate == r.gate && (r.routing ==> d.routing)
            && d.callers.fails == r.callers.fails
            && (f.Complete? ==> d.callers.verifiers != [])
            && (!f.Complete? ==> d.callers.verifiers == r.callers.verifiers)
            && (f.Offer? ==> f.id in d.negs) && (forall id :: id in r.negs ==> id in d.negs)
  {
    if f.Meta? { TS.MetadataArrives(p, r, true); }
    hide Resize;
  }

  lemma RouteLinks(p: Plan, s: System, s': System)
    requires s.routed < |s.ctrl| && CompleteLinks(s) && OffersRouted(s)
    requires s' == s.(rcv := s'.rcv, routed := s.routed + 1) && s'.rcv.gate == s.rcv.gate
    requires s.ctrl[s.routed].Complete? ==> s'.rcv.callers.verifiers != []
    requires !s.ctrl[s.routed].Complete? ==> s'.rcv.callers.verifiers == s.rcv.callers.verifiers
    requires forall id :: id in s.rcv.negs ==> id in s'.rcv.negs
    requires s.ctrl[s.routed].Offer? ==> s.ctrl[s.routed].id in s'.rcv.negs
    requires forall i: byte :: i < |s.snd.offerers| && s.snd.offerers[i].Offered? && s.snd.offerers[i].pos == s.routed ==>
               s.ctrl[s.routed].Offer? && s.ctrl[s.routed].id == i
    ensures CompleteLinks(s') && OffersRouted(s')
  {
    if s.ctrl[s.routed].Complete? { assert HasComplete(s.ctrl, |s.ctrl|); }
    if HasComplete(s.ctrl, s.routed + 1) {
      var k :| 0 <= k < s.routed + 1 && s.ctrl[k].Complete?;
      if k < s.routed { assert HasComplete(s.ctrl, s.routed); }
    }
  }

  // ---- Data peers ----

  lemma InstallSmooth(p: Plan, s: System, i: nat, s': System)
    requires Inv(p, s) && Smooth(p, s) && InstallStep(p, s, i, true, s')
    ensures Smooth(p, s') && NoNewFails(s, s')
  {
    hide Inv, RP.Inv, PP.Inv, SmoothSender, SmoothPipe;
    InstallReceiver(p, s.rcv, i);
    RP.PeerFrame(Setup(p), s.rcv, i, R.Install(true));
    hide R.DoPeer, R.CanPeer, CompleteLinks;
    PeerLinks(s, s');
    LoopsMove(s, s', i);
  }

  lemma InstallReceiver(p: Plan, r: R.Receiver, id: byte)
    requires SmoothReceiver(r) && AnswersSent(r) && Signalled(p, r) && R.CanPeer(r, id, R.Install(true))
    ensures var d := R.DoPeer(Setup(p), r, id, R.Install(true));
            && SmoothReceiver(d) && AnswersSent(d) && Signalled(p, d)
            && d.negs == r.negs && d.gate == r.gate && d.callers == r.callers
            && (id in d.handlers ==> d.handlers[id].turn.Idle?)
  {
    var d := R.DoPeer(Setup(p), r, id, R.Install(true));
    if w :| w in r.handlers && r.handlers[w].turn == R.Counted(true) {
      assert w in d.handlers && d.handlers[w].turn == R.Counted(true);
    }
  }

  /** A data peer's step leaves the links between the channels alone. */
  lemma PeerLinks(s: System, s': System)
    requires OffersRouted(s) && s.routed <= |s.ctrl| && CompleteLinks(s)
    requires s'.snd == s.snd && s'.ctrl == s.ctrl && s'.routed == s.routed && s'.pipe == s.pipe
    requires s'.rcv.negs == s.rcv.negs && s'.rcv.gate == s.rcv.gate
             && s'.rcv.callers.verifiers == s.rcv.callers.verifiers
    ensures OffersRouted(s') && CompleteLinks(s')
  {
  }

  lemma TakeSmooth(p: Plan, s: System, i: nat, s': System)
    requires Inv(p, s) && Smooth(p, s) && TakeStep(p, s, i, s')
    ensures Smooth(p, s') && NoNewFails(s, s')
  {
    hide RP.Inv, PP.Inv, PeersOk, MetaOk, DataOk, SmoothSender, SmoothPipe, R.DoPeer, R.CanPeer, R.DataStep,
      CompleteLinks;
    var id: byte := i;
    var f := s.pipe.sent[id][s.taken[id]];
    CanTake(p, s, id);
    TR.NotSwept(p, s, id);
    TR.HandlerMeans(p, s, id);
    TR.SentFrameOk(p, s, id);
    TR.CursorAt(p, s, id);
    TR.FrameIsAccepted(p, s.rcv, id, f);
    TurnReceiver(p, s.rcv, id, R.Deliver(f));
    PeerLinks(s, s');
    RP.PeerFrame(Setup(p), s.rcv, id, R.Deliver(f));
    LoopsMove(s, s', id);
  }

  lemma CanTake(p: Plan, s: System, id: byte)
    requires s.taken != [] && id < |s.taken| && id < |s.pipe.sent| && s.taken[id] < |s.pipe.sent[id]|
    requires R.CanPeer(s.rcv, id, R.Deliver(s.pipe.sent[id][s.taken[id]]))
    ensures id in s.rcv.handlers && s.rcv.handlers[id].turn.Idle?
  {
  }

  /** A turn that goes well: no error, and a full count is remembered until it is signalled. */
  lemma TurnReceiver(p: Plan, r: R.Receiver, id: byte, a: R.DataAct)
    requires SmoothReceiver(r) && AnswersSent(r) && Signalled(p, r) && R.CanPeer(r, id, a)
    requires a.Deliver? || a.Write? || a.Count? || a.Signal?
    requires var x := R.DataStep(Setup(p), r.gate, r.out, r.handlers[id], a);
             x.2.None? && !x.0.Stopped?
    requires a.Deliver? || a.Write? ==>
               var x := R.DataStep(Setup(p), r.gate, r.out, r.handlers[id], a);
               x.1.meta == r.out.meta && x.1.bytesWritten == r.out.bytesWritten && x.1.allBytes == r.out.allBytes
    requires a.Count? && r.out.meta.Some? ==> r.out.meta.value.fileSize == |p.file|
    ensures var d := R.DoPeer(Setup(p), r, id, a);
            && SmoothReceiver(d) && AnswersSent(d) && Signalled(p, d)
            && d.negs == r.negs && d.gate == r.gate && d.callers == r.callers && d.routing == r.routing
            && id in d.handlers && !d.handlers[id].turn.Stopped?
  {
    TurnQuiet(p, r, id, a);
    TurnSignals(p, r, id, a, R.DoPeer(Setup(p), r, id, a));
    hide R.DoPeer, R.CanPeer, R.DataStep, Signalled;
  }

  lemma TurnQuiet(p: Plan, r: R.Receiver, id: byte, a: R.DataAct)
    requires R.CanPeer(r, id, a) && !a.Install?
    requires R.DataStep(Setup(p), r.gate, r.out, r.handlers[id], a).2.None?
    ensures var d, x := R.DoPeer(Setup(p), r, id, a), R.DataStep(Setup(p), r.gate, r.out, r.handlers[id], a);
            && d.callers == r.callers && d.negs == r.negs && d.answers == r.answers && d.routing == r.routing
            && d.handlers == r.handlers[id := r.handlers[id].(turn := x.0)] && d.out == x.1 && d.gate == r.gate
  {
    hide R.DataStep;
  }

  lemma TurnSignals(p: Plan, r: R.Receiver, id: byte, a: R.DataAct, d: R.Receiver)
    requires Signalled(p, r) && R.CanPeer(r, id, a) && (a.Deliver? || a.Write? || a.Count? || a.Signal?)
    requires var x := R.DataStep(Setup(p), r.gate, r.out, r.handlers[id], a);
             && d.handlers == r.handlers[id := r.handlers[id].(turn := x.0)] && d.out == x.1
             && (a.Deliver? || a.Write? ==>
                   x.1.meta == r.out.meta && x.1.bytesWritten == r.out.bytesWritten && x.1.allBytes == r.out.allBytes)
    requires a.Count? && r.out.meta.Some? ==> r.out.meta.value.fileSize == |p.file|
    ensures Signalled(p, d)
  {
    hide R.Examine, R.PutAt;
    if d.out.meta.Some? && d.out.bytesWritten >= |p.file| && !d.out.allBytes {
      if a.Count? {
        assert d.handlers[id].turn == R.Counted(true);
      } else {
        var w :| w in r.handlers && r.handlers[w].turn == R.Counted(true);
        assert w in d.handlers && d.handlers[w].turn == R.Counted(true);
      }
    }
  }

  // ---- Local steps ----

  lemma PeerSmooth(p: Plan, s: System, id: byte, a: R.DataAct, s': System)
    requires |p.file| < TWO63 && Inv(p, s) && Smooth(p, s)
    requires OrdinaryLocal(R.Peer(id, a)) && TW.LocalPeer(p, s, id, a, s')
    ensures Smooth(p, s') && NoNewFails(s, s')
  {
    hide RP.Inv, PP.Inv, PeersOk, MetaOk, DataOk, SmoothSender, SmoothPipe, CompleteLinks, R.DoPeer, R.DataStep,
      TW.Moves, TW.Ready;
    TW.PeerLocalMoves(p, s, id, a, s');
    TW.HandlerReady(p, s, id);
    MovesFrame(p, s, id, a, s');
    TurnIsGood(p, s, id, a);
    SizeKnown(p, s, id);
    TurnReceiver(p, s.rcv, id, a);
    RP.PeerFrame(Setup(p), s.rcv, id, a);
    CountsMove(p, s, id, a, s');
    LoopsMove(s, s', id);
    PeerLinks(s, s');
  }

  lemma SizeKnown(p: Plan, s: System, id: byte)
    requires |p.file| < TWO64 && TW.Ready(p, s, id)
    ensures s.rcv.out.meta.Some? && s.rcv.out.meta.value.fileSize == |p.file|
  {
    hide PP.Inv, DataOk, CursorOk;
  }

  lemma CountsMove(p: Plan, s: System, id: byte, a: R.DataAct, s': System)
    requires TW.LocalPeer(p, s, id, a, s')
    ensures |s'.counted| == |s.counted| && forall i :: 0 <= i < |s.counted| && i != id ==> s'.counted[i] == s.counted[i]
  {
    hide R.DoPeer, R.CanPeer, Writes;
  }

  lemma MovesFrame(p: Plan, s: System, id: byte, a: R.DataAct, s': System)
    requires TW.LocalPeer(p, s, id, a, s')
    ensures R.CanPeer(s.rcv, id, a) && s'.rcv == R.DoPeer(Setup(p), s.rcv, id, a)
    ensures s'.snd == s.snd && s'.pipe == s.pipe && s'.ctrl == s.ctrl && s'.routed == s.routed
  {
  }

  lemma TurnIsGood(p: Plan, s: System, id: byte, a: R.DataAct)
    requires |p.file| < TWO63 && Inv(p, s) && Healthy(s) && TW.Ready(p, s, id) && R.CanPeer(s.rcv, id, a)
    requires a == R.Write(Written) || a.Count? || a.Signal?
    ensures var x := R.DataStep(Setup(p), s.rcv.gate, s.rcv.out, s.rcv.handlers[id], a);
            && x.2.None? && !x.0.Stopped?
            && (a.Write? ==> x.1.meta == s.rcv.out.meta && x.1.bytesWritten == s.rcv.out.bytesWritten
                             && x.1.allBytes == s.rcv.out.allBytes)
  {
    hide RP.Inv, PP.Inv, PeersOk, MetaOk, DataOk, R.PutAt;
    if a.Write? { OpenForWriting(p, s, id); }
  }

  /** While a checked payload waits, the file is open: a verification would need all bytes counted. */
  lemma OpenForWriting(p: Plan, s: System, id: byte)
    requires Inv(p, s) && Healthy(s) && TW.Ready(p, s, id) && s.rcv.handlers[id].turn.Checked?
    ensures s.rcv.gate.fileOpen
  {
    assert RP.GateOk(Setup(p), s.rcv.out.meta, s.rcv.gate);
    if RP.Clean(s.rcv.gate) { AllCounted(p, s); }
  }

  lemma NegotiateSmooth(p: Plan, s: System, id: byte, a: R.NegAct, s': System)
    requires Inv(p, s) && Smooth(p, s) && OrdinaryLocal(R.Negotiate(id, a)) && !a.CloseOwn?
    requires LocalStep(p, s, R.Negotiate(id, a), s')
    ensures Smooth(p, s') && NoNewFails(s, s')
  {
    hide RP.Inv, PP.Inv, DataOk, SmoothSender, SmoothPipe, CompleteLinks, R.NegStep, LocalStep, R.DoNegotiate;
    TL.NegotiateIs(p, s, id, a, s');
    if a.Check? { NotDoneYet(p, s, id); }
    NegotiatedReceiver(p, s, id, a, s');
    NegotiatedLinks(s, s');
    LoopsSame(s, s');
  }

  /** Until every peer has answered nothing has been verified. */
  lemma NotDoneYet(p: Plan, s: System, id: byte)
    requires Inv(p, s) && Smooth(p, s) && id in s.rcv.negs && !s.rcv.negs[id].phase.Answered?
    ensures s.rcv.gate.at.Free? && s.rcv.gate.doneCloses == 0
  {
    assert RP.GateOk(Setup(p), s.rcv.out.meta, s.rcv.gate);
    if s.snd.stage.Running? {
      TT.PeersPart(p, s);
      TR.HandlerMeans(p, s, id);
      hide RP.Inv, PP.Inv, DataOk;
      TT.AcceptedFrom(p, s, id);
    }
  }

  lemma NegotiatedReceiver(p: Plan, s: System, id: byte, a: R.NegAct, s': System)
    requires SmoothReceiver(s.rcv) && AnswersSent(s.rcv) && Signalled(p, s.rcv) && TL.Negotiates(s, id, a, s')
    requires OrdinaryLocal(R.Negotiate(id, a)) && !a.CloseOwn? && (a.Check? ==> s.rcv.gate.doneCloses == 0)
    requires s'.rcv == R.Do(Setup(p), s.rcv, R.Negotiate(id, a))
    ensures SmoothReceiver(s'.rcv) && AnswersSent(s'.rcv) && Signalled(p, s'.rcv)
    ensures s'.rcv.callers == s.rcv.callers
  {
    hide Blameless, AnswersSent, R.NegStep;
    RP.NegotiateFrame(s.rcv, id, a);
    StepOnItsWay(s.rcv.gate, s.rcv.negs[id], a, |s.rcv.answers|);
    AnswersStaySent(s.rcv, id, a);
  }

  lemma StepOnItsWay(g: R.DoneGate, n: R.Neg, a: R.NegAct, sent: nat)
    requires R.CanNegotiate(g, n, a) && OrdinaryLocal(R.Negotiate(0, a)) && !a.CloseOwn?
             && (a.Check? ==> g.doneCloses == 0)
    ensures OnItsWay(R.NegStep(g, n, a, sent).phase)
  {
  }

  lemma AnswersStaySent(r: R.Receiver, id: byte, a: R.NegAct)
    requires AnswersSent(r) && id in r.negs && R.CanNegotiate(r.gate, r.negs[id], a)
    ensures AnswersSent(R.DoNegotiate(r, id, a))
  {
    RP.NegotiateFrame(r, id, a);
    hide R.DoNegotiate;
  }

  lemma NegotiatedLinks(s: System, s': System)
    requires OffersRouted(s) && s.routed <= |s.ctrl| && CompleteLinks(s)
    requires s' == s.(rcv := s'.rcv) && s'.rcv.negs.Keys == s.rcv.negs.Keys && s'.rcv.gate.at == s.rcv.gate.at
    requires s'.rcv.callers.verifiers == s.rcv.callers.verifiers
    ensures OffersRouted(s') && CompleteLinks(s')
  {
    hide HasComplete;
    forall i: byte | i < |s'.snd.offerers| && s'.snd.offerers[i].Offered? && s'.snd.offerers[i].pos < s'.routed
      ensures i in s'.rcv.negs
    {
      assert i in s.rcv.negs.Keys;
    }
  }

  // ---- The gate ----

  lemma CallSmooth(p: Plan, s: System, k: nat, a: R.VerifyAct, s': System)
    requires Inv(p, s) && Smooth(p, s) && !a.TimeOut? && LocalStep(p, s, R.Call(R.Verify(k, a)), s')
    ensures Smooth(p, s') && NoNewFails(s, s')
  {
    hide SmoothSender, SmoothPipe, PP.Inv, PeersOk, DataOk, MetaOk, R.DoVerify, R.CanVerify, AnswersSent, Signalled,
      HasComplete;
    VerifyFacts(p, s, k, a);
    VerifyReceiver(p, s.rcv, k, a);
    VerifyLinks(p, s, k, a, s');
    LoopsSame(s, s');
  }

  /** What a verification finds in an ordinary run. */
  lemma VerifyFacts(p: Plan, s: System, k: nat, a: R.VerifyAct)
    requires Inv(p, s) && Healthy(s) && R.CanVerify(s.rcv, k, a)
    ensures s.rcv.out.meta.Some? && s.rcv.out.bytesWritten <= s.rcv.out.meta.value.fileSize
    ensures s.rcv.gate.doneCloses > 0 ==> !s.rcv.gate.at.Free?
  {
    assert RP.SizeOk(s.rcv) && RP.GateOk(Setup(p), s.rcv.out.meta, s.rcv.gate);
    TL.CountBounded(p, s);
    hide RP.Inv, PP.Inv, PeersOk, DataOk;
  }

  lemma VerifyReceiver(p: Plan, r: R.Receiver, k: nat, a: R.VerifyAct)
    requires SmoothReceiver(r) && AnswersSent(r) && Signalled(p, r) && R.CanVerify(r, k, a) && !a.TimeOut?
    requires r.out.meta.Some? && r.out.bytesWritten <= r.out.meta.value.fileSize
    requires r.gate.doneCloses > 0 ==> !r.gate.at.Free?
    ensures var d := R.DoVerify(r, k, a);
            SmoothReceiver(d) && AnswersSent(d) && Signalled(p, d) && d.callers.fails == r.callers.fails
  {
  }

  lemma VerifyLinks(p: Plan, s: System, k: nat, a: R.VerifyAct, s': System)
    requires LocalStep(p, s, R.Call(R.Verify(k, a)), s') && s.routed <= |s.ctrl| && CompleteLinks(s) && OffersRouted(s)
    ensures s'.rcv == R.DoVerify(s.rcv, k, a) && s'.snd == s.snd && s'.pipe == s.pipe
    ensures s'.ctrl == s.ctrl && s'.routed == s.routed && s'.counted == s.counted
    ensures s'.rcv.routing == s.rcv.routing && s'.rcv.handlers == s.rcv.handlers
    ensures CompleteLinks(s') && OffersRouted(s')
  {
    hide HasComplete, R.VerifierNext;
  }

  lemma HoldSmooth(p: Plan, s: System, a: R.HoldAct, s': System)
    requires Inv(p, s) && Smooth(p, s) && OrdinaryLocal(R.Hold(a)) && LocalStep(p, s, R.Hold(a), s')
    ensures Smooth(p, s') && NoNewFails(s, s')
  {
    hide SmoothSender, SmoothPipe, PP.Inv, RP.Inv, PeersOk, MetaOk, DataOk, LocalStep, R.HoldStep, HasComplete;
    TL.HoldIs(p, s, a, s');
    HoldIsGood(p, s, a);
    HeldReceiver(p, s, a, s');
    HeldLinks(p, s, a, s');
    LoopsSame(s, s');
  }

  /** A verification of an ordinary run finds nothing wrong and never lets go of the gate. */
  lemma HoldIsGood(p: Plan, s: System, a: R.HoldAct)
    requires Inv(p, s) && Healthy(s) && R.CanHold(s.rcv.out, s.rcv.gate, a) && OrdinaryLocal(R.Hold(a))
    ensures var g := R.HoldStep(Setup(p), s.rcv.out, s.rcv.gate, a); g.result.None? && !g.at.Free?
    ensures !s.rcv.gate.at.Free?
  {
    hide RP.Inv, PP.Inv, PeersOk, MetaOk, DataOk, R.HoldStep, R.CanHold, RP.GateOk;
    HoldFacts(p, s);
    GoodHold(Setup(p), s.rcv.out, s.rcv.gate, a, p.file);
  }

  /** What the holder of an ordinary run's gate finds. */
  lemma HoldFacts(p: Plan, s: System)
    requires Inv(p, s) && Healthy(s)
    ensures RP.GateOk(Setup(p), s.rcv.out.meta, s.rcv.gate)
    ensures RP.Clean(s.rcv.gate) ==>
              s.rcv.out.sink == p.file && s.rcv.gate.hashed <= p.file && s.rcv.out.meta == Some(Announced(p))
  {
    hide PP.Inv, PeersOk, CursorsOk, SumOk, SinkOk, Blameless, RP.TurnsOk, RP.NegsOk, RP.AnswersOk, RP.HandlersOk;
    if RP.Clean(s.rcv.gate) { AllCounted(p, s); }
  }

  lemma GoodHold(u: R.Setup, o: R.Output, g: R.DoneGate, a: R.HoldAct, file: bytes)
    requires RP.GateOk(u, o.meta, g) && g.result.None? && R.CanHold(o, g, a) && OrdinaryLocal(R.Hold(a))
    requires RP.Clean(g) ==>
               o.sink == file && g.hashed <= file && o.meta.Some? && o.meta.value.fileSize == |file|
               && o.meta.value.sha256 == u.hash(file)
    ensures R.HoldStep(u, o, g, a).result.None? && !R.HoldStep(u, o, g, a).at.Free? && !g.at.Free?
  {
    if a.Judge? { assert g.hashed == file; }
  }

  lemma HeldReceiver(p: Plan, s: System, a: R.HoldAct, s': System)
    requires SmoothReceiver(s.rcv) && AnswersSent(s.rcv) && Signalled(p, s.rcv) && TL.Holds(p, s, a, s')
    requires s'.rcv == R.Do(Setup(p), s.rcv, R.Hold(a)) && R.Can(s.rcv, R.Hold(a))
    requires s'.rcv.gate.result.None? && !s'.rcv.gate.at.Free?
    ensures SmoothReceiver(s'.rcv) && AnswersSent(s'.rcv) && Signalled(p, s'.rcv)
  {
    hide R.HoldStep;
    if w :| w in s.rcv.handlers && s.rcv.handlers[w].turn == R.Counted(true) {
      assert w in s'.rcv.handlers.Keys && s'.rcv.handlers[w].turn == R.Counted(true);
    }
    forall id | id in s'.rcv.negs ensures OnItsWay(s'.rcv.negs[id].phase) {
      assert id in s'.rcv.negs.Keys;
    }
  }

  lemma HeldLinks(p: Plan, s: System, a: R.HoldAct, s': System)
    requires s.routed <= |s.ctrl| && CompleteLinks(s) && OffersRouted(s) && TL.Holds(p, s, a, s')
             && !s.rcv.gate.at.Free?
    ensures CompleteLinks(s') && OffersRouted(s')
  {
    hide HasComplete, R.HoldStep, R.CanHold;
    forall i: byte | i < |s'.snd.offerers| && s'.snd.offerers[i].Offered? && s'.snd.offerers[i].pos < s'.routed
      ensures i in s'.rcv.negs
    {
      assert i in s.rcv.negs.Keys;
    }
  }

  /** A fail call that comes to a gate which is not free leaves again. */
  lemma SkipSmooth(p: Plan, s: System, e: CoreError, s': System)
    requires Smooth(p, s) && LocalStep(p, s, R.Call(R.SkipFail(e)), s')
    ensures Smooth(p, s') && NoNewFails(s, s')
  {
    hide SmoothSender, SmoothPipe, HasComplete;
  }

  /** A fail call that finds the gate free decides the result. */
  lemma EnterDecides(p: Plan, s: System, e: CoreError, s': System)
    requires Smooth(p, s) && LocalStep(p, s, R.Call(R.EnterFail(e)), s')
    ensures CloseError(e) && s'.rcv.gate.result == Some(e) && NoNewFails(s, s') && s.rcv.callers.fails != multiset{}
  {
    hide SmoothSender, SmoothPipe, CompleteLinks;
  }

  // ---- Notices ----

  /** A notice changes how one loop stands and makes at most one routine call fail. */
  ghost predicate Noticed(s: System, s': System) {
    && s' == s.(rcv := s'.rcv)
    && s'.rcv.negs == s.rcv.negs && s'.rcv.gate == s.rcv.gate && s'.rcv.answers == s.rcv.answers && s'.rcv.out == s.rcv.out
    && s'.rcv.callers.verifiers == s.rcv.callers.verifiers && |s'.rcv.callers.fails| <= |s.rcv.callers.fails| + 1
    && (forall e :: e in s'.rcv.callers.fails ==> e in s.rcv.callers.fails || CloseError(e))
  }

  lemma NoticedSmooth(p: Plan, s: System, s': System)
    requires Smooth(p, s) && Noticed(s, s') && Signalled(p, s'.rcv) && LoopsOk(s')
    ensures Smooth(p, s')
  {
    hide SmoothSender, SmoothPipe, HasComplete, LoopsOk, Signalled, CloseError;
  }

  /** A notice of a closed channel at worst makes somebody call fail. */
  lemma NoticeSmooth(p: Plan, s: System, x: Notice, s': System)
    requires Inv(p, s) && Smooth(p, s) && MayBeTold(s, x) && LocalStep(p, s, ActionOf(x), s')
    ensures Smooth(p, s') && |s'.rcv.callers.fails| <= |s.rcv.callers.fails| + 1
  {
    hide Inv, Smooth, LocalStep;
    match x {
      case SeeControl => ControlSeen(p, s, s');
      case EndControl => ControlEnded(p, s, s');
      case SeePeer(i) => PeerSeen(p, s, i, s');
      case EndPeer(i, reason) => PeerEnded(p, s, i, reason, s');
    }
  }

  lemma ControlSeen(p: Plan, s: System, s': System)
    requires Smooth(p, s) && LocalStep(p, s, ActionOf(SeeControl), s')
    ensures Smooth(p, s') && Noticed(s, s')
  {
    hide SmoothSender, SmoothPipe, SmoothReceiver, CompleteLinks, OffersRouted, AnswersSent;
    NoticedSmooth(p, s, s');
  }

  lemma ControlEnded(p: Plan, s: System, s': System)
    requires Smooth(p, s) && MayBeTold(s, EndControl) && LocalStep(p, s, ActionOf(EndControl), s')
    ensures Smooth(p, s') && Noticed(s, s')
  {
    hide SmoothSender, SmoothPipe, SmoothReceiver, CompleteLinks, OffersRouted, AnswersSent;
    NoticedSmooth(p, s, s');
  }

  /** What a step of peer i's watcher or the end of its frame loop changes. */
  lemma PeerTold(p: Plan, s: System, i: byte, a: R.DataAct, s': System)
    requires (a.Closed? || a.Breaks?) && LocalStep(p, s, R.Peer(i, a), s')
    ensures Noticed(s, s') && i in s.rcv.handlers && (a.Breaks? ==> s.rcv.handlers[i].turn.Idle?)
    ensures s'.rcv.handlers == s.rcv.handlers[i := s.rcv.handlers[i].(turn := if a.Breaks? then R.Stopped else s.rcv.handlers[i].turn)]
    ensures s'.rcv.routing == s.rcv.routing
  {
    hide R.Examine, R.PutAt;
  }

  lemma PeerSeen(p: Plan, s: System, i: byte, s': System)
    requires Smooth(p, s) && LocalStep(p, s, ActionOf(SeePeer(i)), s')
    ensures Smooth(p, s') && Noticed(s, s')
  {
    hide SmoothSender, SmoothPipe, SmoothReceiver, CompleteLinks, OffersRouted, AnswersSent, LocalStep;
    PeerTold(p, s, i, R.Closed, s');
    assert s'.rcv.handlers == s.rcv.handlers;
    NoticedSmooth(p, s, s');
  }

  lemma PeerEnded(p: Plan, s: System, i: byte, reason: Option<bytes>, s': System)
    requires Inv(p, s) && Smooth(p, s) && MayBeTold(s, EndPeer(i, reason))
             && LocalStep(p, s, ActionOf(EndPeer(i, reason)), s')
    ensures Smooth(p, s') && Noticed(s, s')
  {
    hide Inv, LocalStep, SmoothSender, SmoothPipe, SmoothReceiver, CompleteLinks, OffersRouted, AnswersSent, Noticed;
    PeerTold(p, s, i, R.Breaks(reason), s');
    HealthyNow(p, s);
    CountedOut(p, s, i);
    assert s' == s.(rcv := s'.rcv) && s'.rcv.out == s.rcv.out by { SameRest(s, s'); }
    StoppedSignals(p, s.rcv, i, s'.rcv);
    StoppedLoops(s, i, s');
    NoticedSmooth(p, s, s');
  }

  lemma SameRest(s: System, s': System)
    requires Noticed(s, s')
    ensures s' == s.(rcv := s'.rcv) && s'.rcv.out == s.rcv.out
  {
  }

  lemma HealthyNow(p: Plan, s: System)
    requires Smooth(p, s)
    ensures Healthy(s)
  {
  }

  /** An idle frame loop that has read its channel to the end has counted all of it. */
  lemma CountedOut(p: Plan, s: System, i: byte)
    requires Inv(p, s) && Healthy(s) && i in s.rcv.handlers && s.rcv.handlers[i].turn.Idle?
    requires i < |s.taken| && i < |s.pipe.sent| && s.taken[i] >= |s.pipe.sent[i]|
    ensures i < |s.counted| && s.counted[i] == |s.pipe.sent[i]|
  {
    hide RP.Inv, PP.Inv, PeersOk, MetaOk, DataOk;
    TR.CursorAt(p, s, i);
  }

  lemma StoppedSignals(p: Plan, r: R.Receiver, i: byte, d: R.Receiver)
    requires Signalled(p, r) && d.out == r.out && i in r.handlers && r.handlers[i].turn.Idle?
    requires d.handlers == r.handlers[i := r.handlers[i].(turn := R.Stopped)]
    ensures Signalled(p, d)
  {
    if w :| w in r.handlers && r.handlers[w].turn == R.Counted(true) {
      assert w in d.handlers && d.handlers[w].turn == R.Counted(true);
    }
  }

  lemma StoppedLoops(s: System, i: byte, s': System)
    requires LoopsOk(s) && s' == s.(rcv := s'.rcv) && s'.rcv.routing == s.rcv.routing && i in s.rcv.handlers
    requires s'.rcv.handlers == s.rcv.handlers[i := s.rcv.handlers[i].(turn := R.Stopped)]
    requires s.pipe.main.Completed? && i < |s.counted| && i < |s.pipe.sent| && s.counted[i] == |s.pipe.sent[i]|
    ensures LoopsOk(s')
  {
  }

  // ---- All together ----

  lemma LocalSmooth(p: Plan, s: System, a: R.Action, s': System)
    requires |p.file| < TWO63 && Inv(p, s) && Smooth(p, s) && OrdinaryLocal(a) && LocalStep(p, s, a, s')
    ensures Decided(s, Local(a), s') || Smooth(p, s')
    ensures NoNewFails(s, s')
  {
    hide Inv, Smooth, LocalStep, Decided, NoNewFails;
    match a {
      case Negotiate(id, x) =>
        NoCloseOwn(p, s, id, x, s');
        NegotiateSmooth(p, s, id, x, s');
      case Peer(id, x) =>
        IsLocalPeer(p, s, id, x, s');
        PeerSmooth(p, s, id, x, s');
      case Call(x) => CallLocal(p, s, x, s');
      case Hold(x) => HoldSmooth(p, s, x, s');
    }
  }

  /** The step lets a fail call into the gate, with the error of a closed channel. */
  predicate Decided(s: System, e: Transfer.Event, s': System) {
    && e.Local? && e.action.Call? && e.action.call.EnterFail? && s.rcv.callers.fails != multiset{}
    && CloseError(e.action.call.error) && s'.rcv.gate.result == Some(e.action.call.error)
  }

  lemma CallLocal(p: Plan, s: System, x: R.CallAct, s': System)
    requires Inv(p, s) && Smooth(p, s) && OrdinaryLocal(R.Call(x)) && LocalStep(p, s, R.Call(x), s')
    ensures Decided(s, Local(R.Call(x)), s') || Smooth(p, s')
    ensures NoNewFails(s, s')
  {
    hide Inv, Smooth, LocalStep, NoNewFails;
    match x {
      case Verify(k, a) => CallSmooth(p, s, k, a, s');
      case EnterFail(e) => EnterDecides(p, s, e, s');
      case SkipFail(e) => SkipSmooth(p, s, e, s');
    }
  }

  /** No negotiator has a reason to close its own session. */
  lemma NoCloseOwn(p: Plan, s: System, id: byte, a: R.NegAct, s': System)
    requires Smooth(p, s) && LocalStep(p, s, R.Negotiate(id, a), s')
    ensures !a.CloseOwn?
  {
    hide SmoothSender, SmoothPipe, CompleteLinks, R.DoNegotiate;
    assert OnItsWay(s.rcv.negs[id].phase);
  }

  lemma IsLocalPeer(p: Plan, s: System, id: byte, a: R.DataAct, s': System)
    requires LocalStep(p, s, R.Peer(id, a), s')
    ensures TW.LocalPeer(p, s, id, a, s')
  {
    hide LocalStep;
    TT.IsALocal(p, s, R.Peer(id, a), s');
  }

  lemma StepSmooth(p: Plan, s: System, e: Transfer.Event, s': System)
    requires |p.file| < TWO63 && Inv(p, s) && Smooth(p, s) && Ordinary(e) && Step(p, s, e, s')
    ensures Decided(s, e, s') || Smooth(p, s')
    ensures NoNewFails(s, s')
  {
    hide Inv, Decided, NoNewFails, Smooth, SendStep, PumpStep, HearStep, RouteStep, InstallStep, TakeStep, LocalStep;
    match e {
      case Send(x) => SendSmooth(p, s, x, s');
      case Pump(x, reason) => PumpSmooth(p, s, x, reason, s');
      case Hear => HearSmooth(p, s, s');
      case Route(ok) => RouteSmooth(p, s, s');
      case Install(i, ok) => InstallSmooth(p, s, i, s');
      case Take(i) => TakeSmooth(p, s, i, s');
      case Local(a) => LocalSmooth(p, s, a, s');
    }
  }

  // ---- With a result ----

  /** Nothing has failed at the sender. */
  ghost predicate SenderWell(s: System) { SmoothSender(s.snd) && SmoothPipe(s.pipe) }

  /** Nothing has failed, except that the closing of a channel may have decided the result. */
  ghost predicate OnCourse(p: Plan, s: System) {
    SenderWell(s) && if Healthy(s) then Smooth(p, s) else CloseError(s.rcv.gate.result.value)
  }

  lemma InitOnCourse(p: Plan, s: System)
    requires ValidPlan(p) && Init(p, s)
    ensures OnCourse(p, s)
  {
    InitSmooth(p, s);
  }

  lemma WellStays(p: Plan, s: System, e: Transfer.Event, s': System)
    requires Inv(p, s) && SenderWell(s) && Ordinary(e) && Step(p, s, e, s')
    ensures SenderWell(s')
  {
    hide RP.Inv, PP.Inv, PeersOk, MetaOk, DataOk, SmoothSender, SmoothPipe, R.Do, R.Can, R.TakeControl, R.DoPeer,
      R.CanPeer;
    hide H.Do, H.Can, H.Hear, P.Step;
    match e {
      case Send(x) => SenderSmooth(p, s, x, s');
      case Pump(x, _) => PipeSmooth(p, s.pipe, x, s'.pipe);
      case Hear => HeardSmooth(p.n, s.snd, s.rcv.answers[s.heard]);
      case _ =>
    }
  }

  lemma HeardSmooth(n: nat, snd: H.Sender, f: Frame)
    requires SmoothSender(snd) && f.Answer?
    ensures SmoothSender(H.Hear(n, snd, f.id, f.sdp))
  {
  }

  /** A result that is set stays. */
  lemma ResultStays(p: Plan, s: System, e: Transfer.Event, s': System)
    requires Inv(p, s) && !Healthy(s) && Step(p, s, e, s')
    ensures s'.rcv.gate.result == s.rcv.gate.result
  {
    hide Inv, Step;
    TT.StepSettles(p, s, e, s');
  }

  lemma StepOnCourse(p: Plan, s: System, e: Transfer.Event, s': System)
    requires |p.file| < TWO63 && Inv(p, s) && OnCourse(p, s) && Ordinary(e) && Step(p, s, e, s')
    ensures OnCourse(p, s')
  {
    hide Inv, Smooth, SenderWell, Step, Ordinary;
    WellStays(p, s, e, s');
    if Healthy(s) {
      StepSmooth(p, s, e, s');
      if Smooth(p, s') { HealthyNow(p, s'); }
    } else {
      ResultStays(p, s, e, s');
    }
  }

  lemma NoticeOnCourse(p: Plan, s: System, x: Notice, s': System)
    requires Inv(p, s) && OnCourse(p, s) && MayBeTold(s, x) && LocalStep(p, s, ActionOf(x), s')
    ensures OnCourse(p, s')
  {
    hide Inv, Smooth, MayBeTold, R.Do, R.Can, SenderWell;
    assert SenderWell(s') by { LocalWell(p, s, ActionOf(x), s'); }
    if Healthy(s) {
      NoticeSmooth(p, s, x, s');
      HealthyNow(p, s');
    } else {
      ResultStays(p, s, Local(ActionOf(x)), s');
    }
  }

  lemma LocalWell(p: Plan, s: System, a: R.Action, s': System)
    requires SenderWell(s) && LocalStep(p, s, a, s')
    ensures SenderWell(s')
  {
    hide R.Do, R.Can;
  }

  // ---- Reports ----

  /** An action makes at most one routine more call fail, and calls that reach the gate are over. */
  lemma OneReport(u: R.Setup, r: R.Receiver, a: R.Action)
    requires R.Can(r, a)
    ensures |R.Do(u, r, a).callers.fails| <= |r.callers.fails| + 1
    ensures a.Call? && (a.call.EnterFail? || a.call.SkipFail?) ==> |R.Do(u, r, a).callers.fails| < |r.callers.fails|
  {
    hide R.TakeControl, R.DoNegotiate, R.CanNegotiate, R.DoPeer, R.CanPeer, R.DoCall, R.CanCall, R.HoldStep, R.CanHold;
    match a {
      case Control(f, ok) => RoutedReport(r, f, ok);
      case Negotiate(id, x) => NegotiatorReport(r, id, x);
      case Peer(id, x) => PeerReport(u, r, id, x);
      case Call(x) => CallReport(r, x);
      case Hold(x) =>
    }
  }

  lemma ReportAdds(r: R.Receiver, e: CoreError)
    ensures |R.Report(r, e).callers.fails| == |r.callers.fails| + 1
  {
  }

  lemma RoutedReport(r: R.Receiver, f: Frame, ok: bool)
    ensures |R.TakeControl(r, f, ok).callers.fails| <= |r.callers.fails| + 1
  {
    hide R.MetadataStep, R.Report, R.BlamesSender;
    match f {
      case Meta(m) =>
        var (o, err) := R.MetadataStep(r.out, r.gate.fileOpen, m, ok);
        if err.Some? { ReportAdds(r.(out := o, routing := false), err.value); }
      case Complete => ReportAdds(r.(routing := false), CompleteBeforeMetadata);
      case Abort(reason) => ReportAdds(r.(routing := false), Other(reason));
      case _ =>
    }
  }

  lemma NegotiatorReport(r: R.Receiver, id: byte, a: R.NegAct)
    requires id in r.negs && R.CanNegotiate(r.gate, r.negs[id], a)
    ensures |R.DoNegotiate(r, id, a).callers.fails| <= |r.callers.fails| + 1
  {
    hide R.NegStep;
  }

  lemma PeerReport(u: R.Setup, r: R.Receiver, id: byte, a: R.DataAct)
    requires R.CanPeer(r, id, a)
    ensures |R.DoPeer(u, r, id, a).callers.fails| <= |r.callers.fails| + 1
  {
    hide R.DataStep;
  }

  lemma CallReport(r: R.Receiver, a: R.CallAct)
    requires R.CanCall(r, a)
    ensures |R.DoCall(r, a).callers.fails| <= |r.callers.fails| + 1
    ensures a.EnterFail? || a.SkipFail? ==> |R.DoCall(r, a).callers.fails| < |r.callers.fails|
  {
    hide R.DoVerify, R.CanVerify, R.Report;
    match a {
      case ControlClosed => ReportAdds(r, ClosedEarly);
      case EnterFail(e) => OneFewer(r.callers.fails, e);
      case SkipFail(e) => OneFewer(r.callers.fails, e);
      case Verify(k, step) => VerifyReport(r, k, step);
      case _ =>
    }
  }

  lemma OneFewer(m: multiset<CoreError>, e: CoreError)
    requires e in m
    ensures |m - multiset{e}| == |m| - 1
  {
  }

  lemma VerifyReport(r: R.Receiver, k: nat, a: R.VerifyAct)
    requires R.CanVerify(r, k, a)
    ensures |R.DoVerify(r, k, a).callers.fails| <= |r.callers.fails| + 1
  {
    hide R.VerifierNext, R.Report;
    var (v, err) := R.VerifierNext(r, a);
    if err.Some? { ReportAdds(r.(callers := r.callers.(verifiers := r.callers.verifiers[k := v])), err.value); }
  }
}
