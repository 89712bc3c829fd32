/** Ordinary runs end: a measure of the work a whole transfer has left, which every ordinary step lowers. */
module DeliveryEnds {
  import opened Bytes
  import opened Frames
  import opened Pieces
  import opened Coders
  import opened CoreSpec
  import opened Tallies
  import opened Transfer
  import opened Coverage
  import opened TransferProofs
  import opened Delivery
  import H = Handshake
  import P = Pipeline
  import R = MultiReceiver
  import HP = HandshakeProofs
  import PP = PipelineProofs
  import PT = PipelineTheorems
  import RP = ReceiverProofs
  import TR = TransferReceiving
  import TW = TransferWriting
  import TL = TransferLocal
  import TT = TransferTheorems
  import DP = DeliveryProgress
  import TransferSteps

  // ---- The measure ----

  function StageRank(n: nat, s: H.Stage): nat {
    match s
    case Opening => n + 9
    case Building => n + 6
    case Collecting => n + 5
    case Joining => n + 4
    case Connecting(k) => if k <= n then n + 2 - k else 1
    case _ => 0
  }

  /** How far a negotiation is, up to its answer's being heard and used. */
  function PhaseRank(p: R.Phase, heard: nat, used: int): nat {
    match p
    case Building => 8
    case Built => 7
    case Joined => 6
    case Accepted(_) => 5
    case Cleared(_) => 4
    case Answered(_, pos) => if pos >= heard then 3 else if pos >= used then 2 else 1
    case Failing => 1
    case Bailing => 1
    case _ => 0
  }

  /** From making an offer to an open channel at both ends. */
  function PeerRank(s: System, i: byte): nat {
    if i >= |s.snd.offerers| then 16
    else match s.snd.offerers[i]
      case Making => 15
      case Made(_) => 14
      case Gone => 0
      case Offered(_, _) =>
        if i !in s.rcv.negs then 13
        else PhaseRank(s.rcv.negs[i].phase, s.heard, HP.Used(s.snd, s.heard))
             + (if i in s.rcv.handlers then 0 else 1) + (if i < |s.snd.isOpen| && s.snd.isOpen[i] then 0 else 1)
  }

  function TurnRank(t: R.Turn): nat {
    match t
    case Checked(_, _) => 3
    case Wrote(_) => 2
    case Counted(_) => 1
    case _ => 0
  }

  /** Frames of channel i not yet taken, and the frame in hand. */
  function DataRank(s: System, i: byte): nat {
    (if i < |s.pipe.sent| && i < |s.taken| && s.taken[i] <= |s.pipe.sent[i]| then 4 * (|s.pipe.sent[i]| - s.taken[i]) else 0)
    + (if i in s.rcv.handlers then TurnRank(s.rcv.handlers[i].turn) else 0)
  }

  function Rank(s: System, i: byte): nat { PeerRank(s, i) + DataRank(s, i) }

  function Sum(s: System, n: nat): nat
    requires n <= 0x100
  {
    if n == 0 then 0 else Sum(s, n - 1) + Rank(s, n - 1)
  }

  ghost function FrameRank(): Frame -> nat { (f: Frame) => if f.Meta? || f.Abort? then 1 else if f.Complete? then 6 else 0 }

  ghost function VerifierRank(): R.Verifier -> nat {
    (v: R.Verifier) => match v
      case Started => 5 case Waiting => 4 case Passed => 3 case Entering => 2 case Returned => 0
  }

  function GateRank(size: nat, g: R.DoneGate): nat {
    (match g.at
     case Free => 9
     case Finished => 0
     case Held(stage) =>
       (match stage
        case FailSweep => 8 case VerifySweep => 8 case Syncing => 7 case Hashing => 6 case Keeping => 5
        case Discarding => 4 case Removing => 3 case Announcing => 2 case Releasing => 1))
    + (if |g.hashed| <= size then size - |g.hashed| else 0)
  }

  ghost function Left(p: Plan, s: System): nat
    requires p.n <= 0x100 && s.routed <= |s.ctrl|
  {
    StageRank(p.n, s.snd.stage) + Sum(s, p.n) + 12 * PT.Work(PipeConfig(p), s.pipe)
    + Tally(s.ctrl[s.routed..], FrameRank()) + Tally(s.rcv.callers.verifiers, VerifierRank()) + GateRank(|p.file|, s.rcv.gate)
  }

  // ---- Sums ----

  /** No peer's rank grows. */
  ghost predicate NoGrowth(s: System, s': System) { forall i: byte :: Rank(s', i) <= Rank(s, i) }

  lemma {:induction false} SumShrinks(s: System, s': System, n: nat, j: int)
    requires n <= 0x100 && NoGrowth(s, s')
    requires 0 <= j < n ==> (var b: byte := j; Rank(s', b) < Rank(s, b))
    ensures Sum(s', n) <= Sum(s, n) && (0 <= j < n ==> Sum(s', n) < Sum(s, n))
  {
    hide Rank;
    if n > 0 {
      SumShrinks(s, s', n - 1, j);
      var b: byte := n - 1;
      assert Rank(s', b) <= Rank(s, b);
    }
  }

  lemma {:induction false} SumGrows(s: System, s': System, n: nat, j: int)
    requires n <= 0x100 && forall i: byte :: Rank(s', i) <= Rank(s, i) + if i == j then 4 else 0
    ensures Sum(s', n) <= Sum(s, n) + if 0 <= j < n then 4 else 0
  {
    hide Rank;
    if n > 0 {
      SumGrows(s, s', n - 1, j);
      var b: byte := n - 1;
      assert Rank(s', b) <= Rank(s, b) + if b == j then 4 else 0;
    }
  }

  // ---- The control channel's suffix ----

  lemma SuffixAppends(ctrl: seq<Frame>, r: nat, more: seq<Frame>)
    requires r <= |ctrl| && |more| <= 1
    ensures Tally((ctrl + more)[r..], FrameRank())
         == Tally(ctrl[r..], FrameRank()) + if more == [] then 0 else FrameRank()(more[0])
  {
    if more == [] {
      assert ctrl + more == ctrl;
    } else {
      assert (ctrl + more)[r..] == ctrl[r..] + [more[0]];
      TallyAppend(ctrl[r..], more[0], FrameRank());
    }
  }

  lemma SuffixTakes(ctrl: seq<Frame>, r: nat)
    requires r < |ctrl|
    ensures Tally(ctrl[r..], FrameRank()) == FrameRank()(ctrl[r]) + Tally(ctrl[r + 1..], FrameRank())
  {
    TallyTail(ctrl[r..], FrameRank());
    assert ctrl[r..][1..] == ctrl[r + 1..];
  }

  // ---- The sender ----

  /** The parts of the measure that a step of the sender's handshake leaves alone. */
  lemma SendLowers(p: Plan, s: System, e: H.Step, s': System)
    requires Inv(p, s) && SenderWell(s) && OrdinarySend(e) && SendStep(p, s, e, s')
    ensures s'.routed <= |s'.ctrl| && Left(p, s') < Left(p, s)
  {
    hide RP.Inv, PP.Inv, DataOk, MetaOk, PeersOk, Rank, Sum, PT.Work, Tally, GateRank, H.Do, H.Can;
    hide SmoothSender, SmoothPipe;
    TT.PeersPart(p, s);
    RoutedBound(p, s);
    OneFrame(p, s, e);
    SuffixAppends(s.ctrl, s.routed, H.Sends(Announced(p), s.snd, e));
    SenderOpens(p, s);
    if e.TakeAnswer? { Unknown(p, s, e.ok); }
    StageLowers(p, s, e);
    var j := SendRanks(p, s, e, s');
    SumShrinks(s, s', p.n, j);
  }

  lemma SenderOpens(p: Plan, s: System)
    requires |p.file| < TWO64 && PeersOk(p, s)
    ensures HP.ShapeOk(p.n, s.snd) && HP.OpenOk(p.n, s.snd)
  {
    hide HP.ShapeOk, HP.LogOk, HP.NegsMatch, HP.QueueOk, HP.WaitingOk, HP.Distinct, HP.OpenOk;
  }

  lemma OneFrame(p: Plan, s: System, e: H.Step)
    requires |p.file| < TWO64 && H.Can(s.snd, e) && OrdinarySend(e)
    ensures var more := H.Sends(Announced(p), s.snd, e);
            |more| <= 1 && (more != [] ==> FrameRank()(more[0]) == if e.SendMetadata? then 1 else 0)
  {
  }

  lemma StageLowers(p: Plan, s: System, e: H.Step)
    requires |p.file| < TWO64 && HP.ShapeOk(p.n, s.snd) && HP.OpenOk(p.n, s.snd) && H.Can(s.snd, e) && OrdinarySend(e)
    requires e.TakeAnswer? ==> s.snd.queue[0].0 in s.snd.waiting
    ensures var d := H.Do(p.n, s.snd, e, |s.ctrl|);
            && (PeerStepOf(e) ==> d.stage == s.snd.stage)
            && (!PeerStepOf(e) ==>
                  StageRank(p.n, d.stage) + (if e.SendMetadata? then 1 else 0) < StageRank(p.n, s.snd.stage))
  {
    hide H.PeersById;
  }

  /** Steps that concern one peer. */
  predicate PeerStepOf(e: H.Step) { e.Make? || e.SendOffer? || e.TakeAnswer? || e.ChannelOpens? }

  /** No peer's rank grows; the peer the step concerns has a lower one. */
  lemma SendRanks(p: Plan, s: System, e: H.Step, s': System) returns (j: int)
    requires 0 < p.n <= 0x100 && |p.file| < TWO64 && PeersOk(p, s) && RP.AnswersOk(s.rcv) && SmoothSender(s.snd)
    requires OrdinarySend(e) && SendStep(p, s, e, s')
    ensures NoGrowth(s, s') && (PeerStepOf(e) ==> 0 <= j < p.n)
    ensures 0 <= j < p.n ==> (var b: byte := j; Rank(s', b) < Rank(s, b))
  {
    hide HP.LogOk, HP.FlowOk, HP.NegsMatch, RP.AnswersOk, SmoothSender, Rank, NoGrowth, H.Do;
    j := -1;
    if e.Make? || e.SendOffer? {
      var i: byte := e.i;
      OffererRanks(p, s, i, e, s');
      j := i;
    } else if e.ChannelOpens? {
      var i: byte := e.i;
      OpenerAccepted(p, s, i);
      OpenRanks(p, s, i, s');
      j := i;
    } else if e.TakeAnswer? {
      AnswerTaken(p, s, e.ok, s');
      j := s.rcv.answers[HP.Used(s.snd, s.heard)].id;
    } else {
      StageRanks(p, s, e, s');
    }
  }

  lemma OffererRanks(p: Plan, s: System, i: byte, e: H.Step, s': System)
    requires |p.file| < TWO64 && HP.NegsMatch(s.snd, s.rcv.negs, s.routed) && SendStep(p, s, e, s')
    requires (e.Make? || (e.SendOffer? && e.ok)) && e.i == i
    ensures NoGrowth(s, s') && Rank(s', i) < Rank(s, i)
  {
    assert i !in s.rcv.negs;
  }

  lemma OpenRanks(p: Plan, s: System, i: byte, s': System)
    requires |p.file| < TWO64 && SendStep(p, s, H.ChannelOpens(i), s') && i in s.rcv.negs && s.snd.offerers[i].Offered?
    ensures NoGrowth(s, s') && Rank(s', i) < Rank(s, i)
  {
  }

  lemma StageRanks(p: Plan, s: System, e: H.Step, s': System)
    requires 0 < p.n <= 0x100 && |p.file| < TWO64 && PeersOk(p, s) && SendStep(p, s, e, s')
    requires OrdinarySend(e) && !PeerStepOf(e)
    ensures NoGrowth(s, s')
  {
    hide HP.LogOk, HP.FlowOk, H.PeersById;
    NotYetBuilt(p, s);
  }

  lemma NotYetBuilt(p: Plan, s: System)
    requires |p.file| < TWO64 && HP.NegsMatch(s.snd, s.rcv.negs, s.routed)
    ensures !HP.Built(s.snd) ==> s.rcv.negs == map[]
  {
    if s.rcv.negs != map[] {
      var id :| id in s.rcv.negs.Keys;
    }
  }

  lemma OpenerAccepted(p: Plan, s: System, b: byte)
    requires |p.file| < TWO64 && PeersOk(p, s) && RP.AnswersOk(s.rcv) && SmoothSender(s.snd)
             && H.Can(s.snd, H.ChannelOpens(b))
    ensures b < p.n && b in s.rcv.negs && s.snd.offerers[b].Offered?
  {
    hide HP.LogOk, HP.NegsMatch, RP.AnswersOk, HP.QueueOk;
    assert b !in s.snd.waiting;
    DP.PeerAccepted(p, s, b);
  }

  /** The peer whose answer is taken leaves the queue. */
  lemma AnswerTaken(p: Plan, s: System, ok: bool, s': System)
    requires |p.file| < TWO64 && PeersOk(p, s) && RP.AnswersOk(s.rcv) && SendStep(p, s, H.TakeAnswer(ok), s') && ok
    ensures var used := HP.Used(s.snd, s.heard);
            && 0 <= used < |s.rcv.answers| && s.rcv.answers[used].Answer? && s.rcv.answers[used].id < p.n
            && NoGrowth(s, s') && Rank(s', s.rcv.answers[used].id) < Rank(s, s.rcv.answers[used].id)
  {
    hide HP.LogOk, HP.WaitingOk;
    var used := HP.Used(s.snd, s.heard);
    assert HP.Queued(s.snd.queue[0], s.rcv.answers[used + 0]);
    var id := s.rcv.answers[used].id;
    assert s.rcv.negs[id].phase == R.Answered(s.rcv.answers[used].sdp, used);
    assert id in s.snd.waiting by { Unknown(p, s, ok); }
  }

  /** No answer is for a peer that is not waiting. */
  lemma Unknown(p: Plan, s: System, ok: bool)
    requires |p.file| < TWO64 && PeersOk(p, s) && H.Can(s.snd, H.TakeAnswer(ok))
    ensures s.snd.queue[0].0 in s.snd.waiting
  {
    hide HP.LogOk, HP.NegsMatch;
    HP.TakeAnswerFlows(p.n, s.snd, ok, |s.ctrl|, s.rcv.answers, s.heard);
  }

  // ---- The pipeline and the answers ----

  lemma PumpLowers(p: Plan, s: System, e: P.Event, reason: Option<bytes>, s': System)
    requires Inv(p, s) && SenderWell(s) && !P.IsFault(e) && PumpStep(p, s, e, reason, s')
    ensures s'.routed <= |s'.ctrl| && Left(p, s') < Left(p, s)
  {
    RoutedBound(p, s);
    PeersBound(p, s);
    WellPumped(p, s, e, s');
    hide Inv, SenderWell, Rank, Sum, PT.Work, Tally, GateRank, P.Step, PipeSends, SmoothPipe;
    ClosingFrame(s, s', reason);
    SuffixAppends(s.ctrl, s.routed, PipeSends(s.pipe, s'.pipe, reason));
    var j := OneSends(PipeConfig(p), s.pipe, e, s'.pipe);
    PumpRanks(s, s', j);
    SumGrows(s, s', p.n, j);
  }

  lemma WellPumped(p: Plan, s: System, e: P.Event, s': System)
    requires Inv(p, s) && SenderWell(s) && !P.IsFault(e) && P.Step(PipeConfig(p), s.pipe, e, s'.pipe)
    ensures SmoothPipe(s'.pipe) && PT.Work(PipeConfig(p), s'.pipe) < PT.Work(PipeConfig(p), s.pipe)
  {
    hide RP.Inv, PP.Inv, PeersOk, MetaOk, DataOk, SmoothSender, SmoothPipe, PT.Work, P.Step;
    PipeSmooth(p, s.pipe, e, s'.pipe);
    PT.StepDecreasesWork(PipeConfig(p), s.pipe, e, s'.pipe);
  }

  lemma ClosingFrame(s: System, s': System, reason: Option<bytes>)
    requires SmoothPipe(s'.pipe)
    ensures var more := PipeSends(s.pipe, s'.pipe, reason);
            |more| <= 1 && (more != [] ==> FrameRank()(more[0]) <= 6)
  {
  }

  /** A step of the pipeline sends at most one frame. */
  lemma OneSends(c: P.Config, s: P.State, e: P.Event, s': P.State) returns (j: int)
    requires P.Step(c, s, e, s')
    ensures |s'.sent| == |s.sent|
    ensures forall i :: 0 <= i < |s.sent| ==> |s.sent[i]| <= |s'.sent[i]| <= |s.sent[i]| + if i == j then 1 else 0
  {
    hide P.FrameFor, P.Zeros, PieceLen;
    j := P.Actor(e, |s.workers|);
    if P.ProducerStep(c, s, e, s') {
      assert s'.sent == s.sent;
    }
  }

  lemma PumpRanks(s: System, s': System, j: int)
    requires s' == s.(pipe := s'.pipe, ctrl := s'.ctrl) && |s'.pipe.sent| == |s.pipe.sent|
    requires forall i :: 0 <= i < |s.pipe.sent| ==>
               |s.pipe.sent[i]| <= |s'.pipe.sent[i]| <= |s.pipe.sent[i]| + if i == j then 1 else 0
    ensures forall i: byte :: Rank(s', i) <= Rank(s, i) + if i == j then 4 else 0
  {
  }

  lemma HearLowers(p: Plan, s: System, s': System)
    requires Inv(p, s) && HearStep(p, s, s')
    ensures s'.routed <= |s'.ctrl| && Left(p, s') < Left(p, s)
  {
    TT.PeersPart(p, s);
    hide Inv, RP.Inv, SmoothSender, SmoothPipe;
    hide Rank, Sum, PT.Work, Tally, GateRank, PeersOk, RP.AnswersOk;
    var id := HeardRank(p, s, s');
    SumShrinks(s, s', p.n, id);
  }

  lemma HeardRank(p: Plan, s: System, s': System) returns (id: byte)
    requires |p.file| < TWO64 && PeersOk(p, s) && RP.AnswersOk(s.rcv) && HearStep(p, s, s')
    ensures id < p.n && NoGrowth(s, s') && Rank(s', id) < Rank(s, id)
  {
    hide HP.LogOk, HP.WaitingOk;
    HP.FewAnswers(p.n, s.rcv.answers);
    id := s.rcv.answers[s.heard].id;
    assert s.rcv.negs[id].phase == R.Answered(s.rcv.answers[s.heard].sdp, s.heard);
  }

  // ---- The control loop ----

  lemma RouteLowers(p: Plan, s: System, s': System)
    requires Inv(p, s) && RouteStep(s, true, s')
    ensures s'.routed <= |s'.ctrl| && Left(p, s') < Left(p, s)
  {
    hide Inv, RP.Inv, Rank, Sum, PT.Work, Tally, GateRank, PeersOk, MetaOk, RP.AnswersOk, RP.SizeOk, R.TakeControl,
      FrameRank, VerifierRank;
    TT.PeersPart(p, s);
    PlanBound(p, s);
    var f := s.ctrl[s.routed];
    RoutedKind(p, s);
    RankOf(f);
    SuffixTakes(s.ctrl, s.routed);
    RP.ControlFrame(s.rcv, f, true);
    RoutedVerifiers(s.rcv, f);
    RoutedRanks(p, s, s');
    SumShrinks(s, s', p.n, if f.Offer? then f.id else -1);
  }

  lemma RankOf(f: Frame)
    requires f.Meta? || f.Offer? || f.Complete? || f.Abort?
    ensures FrameRank()(f) == if f.Complete? then 6 else if f.Offer? then 0 else 1
  {
  }

  /** What the honest sender puts on the control channel; an offer is always for a new peer. */
  lemma RoutedKind(p: Plan, s: System)
    requires |p.file| < TWO64 && PeersOk(p, s) && s.routed < |s.ctrl|
    ensures var f := s.ctrl[s.routed];
            && (f.Meta? || f.Offer? || f.Complete? || f.Abort?)
            && (f.Offer? ==> f.id !in s.rcv.negs && f.id < |s.snd.offerers|
                             && s.snd.offerers[f.id] == H.Offered(f.sdp, s.routed))
  {
    hide HP.FlowOk, HP.ShapeOk;
    var f := s.ctrl[s.routed];
    assert HP.CtrlOk(Announced(p), s.snd, s.routed, f);
    if f.Offer? { HP.OfferIsFresh(Announced(p), s.snd, s.ctrl, s.rcv.negs, s.routed); }
  }

  lemma RoutedVerifiers(r: R.Receiver, f: Frame)
    ensures var d := R.TakeControl(r, f, true);
            && Tally(d.callers.verifiers, VerifierRank()) <= Tally(r.callers.verifiers, VerifierRank()) + (if f.Complete? then 5 else 0)
            && d.gate == r.gate
  {
    hide R.MetadataStep;
    if f.Complete? { TallyAppend(r.callers.verifiers, R.Started, VerifierRank()); }
  }

  lemma RoutedRanks(p: Plan, s: System, s': System)
    requires |p.file| < TWO64 && PeersOk(p, s) && RouteStep(s, true, s')
    requires s.ctrl[s.routed].Offer? ==>
               var f := s.ctrl[s.routed];
               f.id !in s.rcv.negs && f.id < |s.snd.offerers| && s.snd.offerers[f.id] == H.Offered(f.sdp, s.routed)
    ensures NoGrowth(s, s')
    ensures s.ctrl[s.routed].Offer? ==>
              s.ctrl[s.routed].id < p.n && Rank(s', s.ctrl[s.routed].id) < Rank(s, s.ctrl[s.routed].id)
  {
    hide R.TakeControl, HP.LogOk, HP.FlowOk, HP.NegsMatch;
    var f := s.ctrl[s.routed];
    RP.ControlFrame(s.rcv, f, true);
    OfferRouted(s.rcv, f);
    GrownRanks(s, s');
  }

  lemma OfferRouted(r: R.Receiver, f: Frame)
    ensures f.Offer? && f.id !in r.negs ==> f.id in R.TakeControl(r, f, true).negs
  {
  }

  lemma GrownRanks(s: System, s': System)
    requires s' == s.(rcv := s'.rcv, routed := s.routed + 1) && RP.PeersGrow(s.rcv, s'.rcv)
    ensures NoGrowth(s, s')
    ensures forall i :: i in s'.rcv.negs && i !in s.rcv.negs && i < |s.snd.offerers| && s.snd.offerers[i].Offered? ==>
              Rank(s', i) < Rank(s, i)
  {
  }

  // ---- Data peers ----

  lemma PeerLowers(p: Plan, s: System, s': System, id: byte)
    requires p.n <= 0x100 && id < p.n && s.routed <= |s.ctrl|
    requires s'.snd == s.snd && s'.ctrl == s.ctrl && s'.routed == s.routed && s'.pipe == s.pipe
    requires s'.rcv.gate == s.rcv.gate && s'.rcv.callers.verifiers == s.rcv.callers.verifiers
    requires NoGrowth(s, s') && Rank(s', id) < Rank(s, id)
    ensures Left(p, s') < Left(p, s)
  {
    hide Rank, Sum, NoGrowth, PT.Work, Tally, GateRank;
    SumShrinks(s, s', p.n, id);
  }

  lemma InstallLowers(p: Plan, s: System, i: nat, s': System)
    requires Inv(p, s) && InstallStep(p, s, i, true, s')
    ensures s'.routed <= |s'.ctrl| && Left(p, s') < Left(p, s)
  {
    var id: byte := i;
    TT.PeersPart(p, s);
    InstallRank(p, s, id, s');
    RoutedBound(p, s);
    hide Inv, PeersOk, Left, NoGrowth, Rank, R.DoPeer, R.CanPeer;
    RP.PeerFrame(Setup(p), s.rcv, id, R.Install(true));
    PeerLowers(p, s, s', id);
  }

  lemma RoutedBound(p: Plan, s: System)
    requires Inv(p, s)
    ensures s.routed <= |s.ctrl|
  {
    hide RP.Inv, PP.Inv, DataOk;
  }

  lemma InstallRank(p: Plan, s: System, id: byte, s': System)
    requires |p.file| < TWO64 && PeersOk(p, s) && InstallStep(p, s, id, true, s')
    ensures NoGrowth(s, s') && Rank(s', id) < Rank(s, id)
  {
    hide HP.LogOk, HP.FlowOk;
    assert id in s.rcv.negs;
  }

  lemma TakeLowers(p: Plan, s: System, i: nat, s': System)
    requires Inv(p, s) && TakeStep(p, s, i, s')
    ensures s'.routed <= |s'.ctrl| && Left(p, s') < Left(p, s)
  {
    hide Inv, Left, NoGrowth, Rank, R.DoPeer, R.DataStep;
    var id: byte := i;
    var f := s.pipe.sent[id][s.taken[id]];
    RoutedBound(p, s);
    CanTake(p, s, id);
    RP.PeerFrame(Setup(p), s.rcv, id, R.Deliver(f));
    Delivered(p, s.rcv, id, f);
    TakeRank(s, id, s');
    PeersBound(p, s);
    PeerLowers(p, s, s', id);
  }

  lemma PeersBound(p: Plan, s: System)
    requires Inv(p, s)
    ensures p.n <= 0x100
  {
    hide RP.Inv, PP.Inv, PeersOk, MetaOk, DataOk;
  }

  lemma PlanBound(p: Plan, s: System)
    requires Inv(p, s)
    ensures |p.file| < TWO64
  {
    hide RP.Inv, PP.Inv, PeersOk, MetaOk, DataOk;
  }

  /** A frame that is taken is examined, and then either written or the end of the loop. */
  lemma Delivered(p: Plan, r: R.Receiver, id: byte, f: Frame)
    requires R.CanPeer(r, id, R.Deliver(f))
    ensures id in r.handlers && r.handlers[id].turn.Idle?
    ensures var d := R.DoPeer(Setup(p), r, id, R.Deliver(f));
            id in d.handlers && (d.handlers[id].turn.Checked? || d.handlers[id].turn.Stopped?)
  {
    hide R.Examine;
  }

  lemma TakeRank(s: System, id: byte, s': System)
    requires id < |s.taken| && id < |s.pipe.sent| && s.taken[id] < |s.pipe.sent[id]|
    requires s' == s.(rcv := s'.rcv, taken := s.taken[id := s.taken[id] + 1])
    requires id in s.rcv.handlers && s.rcv.handlers[id].turn.Idle? && s'.rcv.negs == s.rcv.negs
    requires id in s'.rcv.handlers && (s'.rcv.handlers[id].turn.Checked? || s'.rcv.handlers[id].turn.Stopped?)
    requires forall k :: k != id ==> (k in s'.rcv.handlers <==> k in s.rcv.handlers)
                                     && (k in s.rcv.handlers ==> s'.rcv.handlers[k] == s.rcv.handlers[k])
    ensures NoGrowth(s, s') && Rank(s', id) < Rank(s, id)
  {
  }

  lemma TurnLowers(p: Plan, s: System, id: byte, a: R.DataAct, s': System)
    requires Inv(p, s) && OrdinaryLocal(R.Peer(id, a)) && TW.LocalPeer(p, s, id, a, s')
    ensures s'.routed <= |s'.ctrl| && Left(p, s') < Left(p, s)
  {
    hide RP.Inv, PP.Inv, PeersOk, MetaOk, DataOk, Left, NoGrowth, Rank, R.DoPeer, R.CanPeer, R.DataStep, TW.Moves;
    RoutedBound(p, s);
    MovesFrame(p, s, id, a, s');
    TW.PeerLocalMoves(p, s, id, a, s');
    TR.HandlerMeans(p, s, id);
    RP.PeerFrame(Setup(p), s.rcv, id, a);
    TurnTurns(p, s.rcv, id, a);
    SameChannels(p, s, id, a, s');
    TurnRankDrops(s, id, s');
    PeerLowers(p, s, s', id);
  }

  lemma SameChannels(p: Plan, s: System, id: byte, a: R.DataAct, s': System)
    requires TW.LocalPeer(p, s, id, a, s')
    ensures s'.heard == s.heard && s'.taken == s.taken
  {
  }

  /** A turn that is taken is nearer to its end. */
  lemma TurnTurns(p: Plan, r: R.Receiver, id: byte, a: R.DataAct)
    requires R.CanPeer(r, id, a) && (a == R.Write(Written) || a.Count? || a.Signal?)
    ensures var d := R.DoPeer(Setup(p), r, id, a);
            id in r.handlers && d.handlers.Keys == r.handlers.Keys
            && TurnRank(d.handlers[id].turn) < TurnRank(r.handlers[id].turn)
  {
    hide R.PutAt;
  }

  lemma TurnRankDrops(s: System, id: byte, s': System)
    requires s'.snd == s.snd && s'.pipe == s.pipe && s'.heard == s.heard && s'.taken == s.taken
             && s'.rcv.negs == s.rcv.negs
    requires id in s.rcv.handlers && s'.rcv.handlers.Keys == s.rcv.handlers.Keys
    requires TurnRank(s'.rcv.handlers[id].turn) < TurnRank(s.rcv.handlers[id].turn)
    requires forall k :: k != id && k in s.rcv.handlers ==> s'.rcv.handlers[k] == s.rcv.handlers[k]
    ensures NoGrowth(s, s') && Rank(s', id) < Rank(s, id)
  {
    hide TurnRank, PhaseRank;
    forall i: byte ensures Rank(s', i) <= Rank(s, i) {
      assert i in s'.rcv.handlers.Keys <==> i in s.rcv.handlers.Keys;
    }
  }

  // ---- Negotiation and the gate ----

  lemma NegotiateLowers(p: Plan, s: System, id: byte, a: R.NegAct, s': System)
    requires Inv(p, s) && OrdinaryLocal(R.Negotiate(id, a)) && LocalStep(p, s, R.Negotiate(id, a), s')
    ensures s'.routed <= |s'.ctrl| && Left(p, s') < Left(p, s)
  {
    hide RP.Inv, PP.Inv, PeersOk, MetaOk, DataOk, Left, NoGrowth, Rank, LocalStep, R.NegStep;
    TL.NegotiateIs(p, s, id, a, s');
    TR.HandlerMeans(p, s, id);
    TT.PeersPart(p, s);
    RoutedBound(p, s);
    NegotiateRank(p, s, id, a, s');
    PeerLowers(p, s, s', id);
  }

  lemma NegotiateRank(p: Plan, s: System, id: byte, a: R.NegAct, s': System)
    requires |p.file| < TWO64 && PeersOk(p, s) && TL.Negotiates(s, id, a, s') && OrdinaryLocal(R.Negotiate(id, a))
    requires s'.rcv == R.Do(Setup(p), s.rcv, R.Negotiate(id, a))
    ensures NoGrowth(s, s') && Rank(s', id) < Rank(s, id)
  {
    hide HP.LogOk, HP.FlowOk, Blameless, R.DoNegotiate, R.NegStep, PhaseRank;
    RP.NegotiateFrame(s.rcv, id, a);
    HeardBound(p, s);
    PhaseDrops(s.rcv.gate, s.rcv.negs[id], a, |s.rcv.answers|, s.heard, HP.Used(s.snd, s.heard));
  }

  lemma PhaseDrops(g: R.DoneGate, n: R.Neg, a: R.NegAct, sent: nat, heard: nat, used: int)
    requires R.CanNegotiate(g, n, a) && OrdinaryLocal(R.Negotiate(0, a)) && heard <= sent
    ensures PhaseRank(R.NegStep(g, n, a, sent).phase, heard, used) < PhaseRank(n.phase, heard, used)
  {
  }

  lemma HeardBound(p: Plan, s: System)
    requires |p.file| < TWO64 && PeersOk(p, s)
    ensures s.heard <= |s.rcv.answers|
  {
    hide HP.LogOk, HP.NegsMatch, HP.WaitingOk;
  }

  lemma SameRanks(s: System, s': System, n: nat)
    requires n <= 0x100 && s'.snd == s.snd && s'.heard == s.heard && s'.pipe == s.pipe && s'.taken == s.taken
    requires s'.rcv.negs.Keys == s.rcv.negs.Keys && s'.rcv.handlers.Keys == s.rcv.handlers.Keys
    requires forall i :: i in s.rcv.negs ==> s'.rcv.negs[i].phase == s.rcv.negs[i].phase
    requires forall i :: i in s.rcv.handlers ==> TurnRank(s'.rcv.handlers[i].turn) <= TurnRank(s.rcv.handlers[i].turn)
    ensures Sum(s', n) <= Sum(s, n)
  {
    hide TurnRank;
    forall i: byte ensures Rank(s', i) <= Rank(s, i) {
      assert i in s'.rcv.negs.Keys <==> i in s.rcv.negs.Keys;
      assert i in s'.rcv.handlers.Keys <==> i in s.rcv.handlers.Keys;
    }
    SumShrinks(s, s', n, -1);
  }

  /** Parts of the measure that a call before the gate, its holder, or a notice leaves alone. */
  ghost predicate GateOnly(s: System, s': System) {
    && s' == s.(rcv := s'.rcv)
    && s'.rcv.negs.Keys == s.rcv.negs.Keys && s'.rcv.handlers.Keys == s.rcv.handlers.Keys
    && (forall i :: i in s.rcv.negs ==> s'.rcv.negs[i].phase == s.rcv.negs[i].phase)
    && (forall i :: i in s.rcv.handlers ==> TurnRank(s'.rcv.handlers[i].turn) <= TurnRank(s.rcv.handlers[i].turn))
  }

  lemma GateLeft(p: Plan, s: System, s': System)
    requires p.n <= 0x100 && s.routed <= |s.ctrl| && GateOnly(s, s')
    ensures Left(p, s') - Left(p, s)
         <= Tally(s'.rcv.callers.verifiers, VerifierRank()) + GateRank(|p.file|, s'.rcv.gate)
            - Tally(s.rcv.callers.verifiers, VerifierRank()) - GateRank(|p.file|, s.rcv.gate)
  {
    hide Sum, PT.Work, Tally, GateRank;
    SameRanks(s, s', p.n);
  }

  lemma CallLowers(p: Plan, s: System, a: R.CallAct, s': System)
    requires Inv(p, s) && OrdinaryLocal(R.Call(a)) && LocalStep(p, s, R.Call(a), s')
    ensures s'.routed <= |s'.ctrl| && Left(p, s') <= Left(p, s) && (!a.SkipFail? ==> Left(p, s') < Left(p, s))
  {
    RoutedBound(p, s);
    PeersBound(p, s);
    hide Inv, Left, Tally, GateRank, R.DoCall, R.CanCall;
    RP.CallFrame(s.rcv, a);
    GateLeft(p, s, s');
    CallDrops(p, s.rcv, a);
  }

  lemma CallDrops(p: Plan, r: R.Receiver, a: R.CallAct)
    requires R.CanCall(r, a) && OrdinaryLocal(R.Call(a))
    ensures var d := R.DoCall(r, a);
            var before := Tally(r.callers.verifiers, VerifierRank()) + GateRank(|p.file|, r.gate);
            var after := Tally(d.callers.verifiers, VerifierRank()) + GateRank(|p.file|, d.gate);
            after <= before && (!a.SkipFail? ==> after < before)
  {
    hide R.DoVerify, R.CanVerify, Tally;
    if a.Verify? { VerifierLowers(p, r, a.k, a.step); }
  }

  lemma VerifierLowers(p: Plan, r: R.Receiver, k: nat, a: R.VerifyAct)
    requires R.CanVerify(r, k, a) && !a.TimeOut?
    ensures var d := R.DoVerify(r, k, a);
            && Tally(d.callers.verifiers, VerifierRank()) < Tally(r.callers.verifiers, VerifierRank())
            && GateRank(|p.file|, d.gate) <= GateRank(|p.file|, r.gate)
  {
    TallyUpdate(r.callers.verifiers, k, R.VerifierNext(r, a).0, VerifierRank());
    hide Tally;
  }

  lemma HoldLowers(p: Plan, s: System, a: R.HoldAct, s': System)
    requires Inv(p, s) && OrdinaryLocal(R.Hold(a)) && LocalStep(p, s, R.Hold(a), s')
    ensures s'.routed <= |s'.ctrl| && Left(p, s') < Left(p, s)
  {
    RoutedBound(p, s);
    PeersBound(p, s);
    GateLowers(p, s, a);
    PhasesHeld(p, s, a, s');
    hide Inv, Left, Tally, GateRank, LocalStep, R.HoldStep, TurnRank;
    TL.HoldIs(p, s, a, s');
    GateLeft(p, s, s');
  }

  lemma PhasesHeld(p: Plan, s: System, a: R.HoldAct, s': System)
    requires LocalStep(p, s, R.Hold(a), s')
    ensures forall i :: i in s.rcv.negs ==> i in s'.rcv.negs && s'.rcv.negs[i].phase == s.rcv.negs[i].phase
  {
    hide R.HoldStep;
  }

  lemma GateLowers(p: Plan, s: System, a: R.HoldAct)
    requires Inv(p, s) && R.CanHold(s.rcv.out, s.rcv.gate, a) && OrdinaryLocal(R.Hold(a))
    ensures GateRank(|p.file|, R.HoldStep(Setup(p), s.rcv.out, s.rcv.gate, a)) < GateRank(|p.file|, s.rcv.gate)
  {
    hide PP.Inv, PeersOk, DataOk, R.HoldStep, R.CanHold, GateRank, RP.TurnsOk, RP.NegsOk, RP.AnswersOk, RP.HandlersOk;
    assert s.rcv.out.meta.Some? ==> s.rcv.out.meta.value.fileSize == |p.file|;
    HoldDrops(Setup(p), s.rcv.out, s.rcv.gate, a, |p.file|);
  }

  lemma HoldDrops(u: R.Setup, o: R.Output, g: R.DoneGate, a: R.HoldAct, size: nat)
    requires RP.GateOk(u, o.meta, g) && R.CanHold(o, g, a)
    requires o.meta.Some? ==> o.meta.value.fileSize == size
    ensures GateRank(size, R.HoldStep(u, o, g, a)) < GateRank(size, g)
  {
  }

  // ---- All together ----

  /** A fail call that leaves without having entered. */
  predicate Skips(e: Transfer.Event) { e.Local? && e.action.Call? && e.action.call.SkipFail? }

  lemma LocalLowers(p: Plan, s: System, a: R.Action, s': System)
    requires Inv(p, s) && OrdinaryLocal(a) && LocalStep(p, s, a, s')
    ensures s'.routed <= |s'.ctrl| && Left(p, s') <= Left(p, s) && (!Skips(Local(a)) ==> Left(p, s') < Left(p, s))
  {
    RoutedBound(p, s);
    hide Inv, LocalStep, Left;
    match a {
      case Negotiate(id, x) => NegotiateLowers(p, s, id, x, s');
      case Peer(id, x) =>
        IsLocalPeer(p, s, id, x, s');
        TurnLowers(p, s, id, x, s');
      case Call(x) => CallLowers(p, s, x, s');
      case Hold(x) => HoldLowers(p, s, x, s');
    }
  }

  /** Every ordinary step leaves less to do, except that a fail call which is too late only goes away. */
  lemma StepLowers(p: Plan, s: System, e: Transfer.Event, s': System)
    requires Inv(p, s) && SenderWell(s) && Ordinary(e) && Step(p, s, e, s')
    ensures s'.routed <= |s'.ctrl| && Left(p, s') <= Left(p, s) && (!Skips(e) ==> Left(p, s') < Left(p, s))
  {
    RoutedBound(p, s);
    hide Inv, SenderWell, SendStep, PumpStep, HearStep, RouteStep, InstallStep, TakeStep, LocalStep, Left;
    match e {
      case Send(x) => SendLowers(p, s, x, s');
      case Pump(x, reason) => PumpLowers(p, s, x, reason, s');
      case Hear => HearLowers(p, s, s');
      case Route(ok) => RouteLowers(p, s, s');
      case Install(i, ok) => InstallLowers(p, s, i, s');
      case Take(i) => TakeLowers(p, s, i, s');
      case Local(a) => LocalLowers(p, s, a, s');
    }
  }

  /** A notice gives nobody more to do. */
  lemma NoticeLowers(p: Plan, s: System, x: Notice, s': System)
    requires Inv(p, s) && LocalStep(p, s, ActionOf(x), s')
    ensures s'.routed <= |s'.ctrl| && Left(p, s') <= Left(p, s)
  {
    RoutedBound(p, s);
    PeersBound(p, s);
    hide Inv, Left, Tally, GateRank, LocalStep;
    NoticeGate(p, s, x, s');
    GateLeft(p, s, s');
  }

  lemma NoticeGate(p: Plan, s: System, x: Notice, s': System)
    requires LocalStep(p, s, ActionOf(x), s')
    ensures GateOnly(s, s') && s'.rcv.gate == s.rcv.gate && s'.rcv.callers.verifiers == s.rcv.callers.verifiers
  {
    match x {
      case SeePeer(i) => PeerTold(p, s, i, R.Closed, s');
      case EndPeer(i, reason) => PeerTold(p, s, i, R.Breaks(reason), s');
      case _ =>
    }
  }

  // ---- Fresh systems ----

  lemma {:induction false} FreshSum(p: Plan, s: System, n: nat)
    requires Init(p, s) && n <= p.n <= 0x100
    ensures Sum(s, n) == 16 * n
  {
    if n > 0 {
      FreshSum(p, s, n - 1);
    }
  }

  lemma FreshLeft(p: Plan, s: System)
    requires ValidPlan(p) && Init(p, s)
    ensures s.routed <= |s.ctrl|
    ensures Left(p, s) == |p.file| + 120 * PT.PiecesLeft(|p.file|, 0) + 41 * p.n + 150
  {
    FreshSum(p, s, p.n);
    PT.TallyConstant(s.pipe.workers, p.n);
    hide Sum, PT.PiecesLeft;
  }
}
