/**
 * Whole transfers up to and past the sender's closing of its channels. They all end, and what decides
 * how is whether a verification or the fail of a closed channel enters the done gate first.
 */
module DeliveryTheorems {
  import opened Bytes
  import opened Frames
  import opened CoreSpec
  import opened Transfer
  import opened Coverage
  import opened TransferProofs
  import opened Delivery
  import H = Handshake
  import P = Pipeline
  import R = MultiReceiver
  import RP = ReceiverProofs
  import SD = Shutdown
  import PP = PipelineProofs
  import PT = PipelineTheorems
  import TT = TransferTheorems
  import TR = TransferReceiving
  import TransferSteps
  import DP = DeliveryProgress
  import DE = DeliveryEnds

  /** A transfer, what the sender has closed, and who at the receiver has been told of it. */
  datatype State = State(sys: System, ctrlClosed: bool, peersClosed: nat, told: set<Notice>)

  datatype Move =
    | Work(event: Transfer.Event)     // an ordinary step
    | CloseControl                    // close(false): the control channel first,
    | ClosePeer                       // then the data peers, one after another
    | Tell(notice: Notice)

  /** Every routine is told once, whatever the error. */
  function Plain(x: Notice): Notice { if x.EndPeer? then EndPeer(x.i, None) else x }

  predicate IsClosed(s: State, x: Notice) {
    match x
    case SeePeer(i) => i < s.peersClosed
    case EndPeer(i, _) => i < s.peersClosed
    case _ => s.ctrlClosed
  }

  predicate Moves(p: Plan, s: State, m: Move, s': State)
    requires |p.file| < TWO64
  {
    match m
    case Work(e) => Ordinary(e) && Step(p, s.sys, e, s'.sys) && s' == s.(sys := s'.sys)
    case CloseControl => s.sys.pipe.main.Completed? && !s.ctrlClosed && s' == s.(ctrlClosed := true)
    case ClosePeer => s.ctrlClosed && s.peersClosed < p.n && s' == s.(peersClosed := s.peersClosed + 1)
    case Tell(x) =>
      && IsClosed(s, x) && Plain(x) !in s.told && MayBeTold(s.sys, x) && LocalStep(p, s.sys, ActionOf(x), s'.sys)
      && s' == s.(sys := s'.sys, told := s.told + {Plain(x)})
  }

  ghost predicate Next(p: Plan, s: State, s': State)
    requires |p.file| < TWO64
  {
    exists m :: Moves(p, s, m, s')
  }

  predicate Start(p: Plan, s: State) { Init(p, s.sys) && !s.ctrlClosed && s.peersClosed == 0 && s.told == {} }

  /** A run in which the environment does its part, with the sender's close at its end. */
  ghost predicate IsRun(p: Plan, run: seq<State>) {
    && ValidPlan(p) && |p.file| < TWO63 && run != [] && Start(p, run[0])
    && forall k :: 0 <= k < |run| - 1 ==> Next(p, run[k], run[k + 1])
  }

  function Last(run: seq<State>): State
    requires run != []
  {
    run[|run| - 1]
  }

  // ---- What every move keeps ----

  ghost predicate Good(p: Plan, s: State) {
    Inv(p, s.sys) && OnCourse(p, s.sys) && TT.CompleteOk(s.sys) && s.peersClosed <= p.n
  }

  lemma StartIsGood(p: Plan, s: State)
    requires ValidPlan(p) && Start(p, s)
    ensures Good(p, s)
  {
    hide Inv, OnCourse, Init;
    TransferSteps.InitInv(p, s.sys);
    InitOnCourse(p, s.sys);
    FreshComplete(p, s.sys);
  }

  lemma FreshComplete(p: Plan, s: System)
    requires Init(p, s)
    ensures TT.CompleteOk(s)
  {
  }

  lemma MoveIsGood(p: Plan, s: State, m: Move, s': State)
    requires |p.file| < TWO63 && Good(p, s) && Moves(p, s, m, s')
    ensures Good(p, s')
  {
    hide Inv, OnCourse, Step, Ordinary, MayBeTold, LocalStep, TT.CompleteOk;
    match m {
      case Work(e) =>
        TT.StepKeepsInv(p, s.sys, e, s'.sys);
        TT.StepKeepsComplete(p, s.sys, e, s'.sys);
        StepOnCourse(p, s.sys, e, s'.sys);
      case Tell(x) =>
        ToldIsAStep(p, s.sys, x, s'.sys);
        TT.StepKeepsInv(p, s.sys, Local(ActionOf(x)), s'.sys);
        TT.StepKeepsComplete(p, s.sys, Local(ActionOf(x)), s'.sys);
        NoticeOnCourse(p, s.sys, x, s'.sys);
      case _ =>
    }
  }

  lemma ToldIsAStep(p: Plan, s: System, x: Notice, s': System)
    requires |p.file| < TWO64 && LocalStep(p, s, ActionOf(x), s')
    ensures Step(p, s, Local(ActionOf(x)), s')
  {
    hide LocalStep;
  }

  lemma {:induction false} RunIsGood(p: Plan, run: seq<State>, t: nat)
    requires IsRun(p, run) && t < |run|
    ensures Good(p, run[t])
  {
    hide Good, Moves, Start;
    if t == 0 {
      StartIsGood(p, run[0]);
    } else {
      RunIsGood(p, run, t - 1);
      assert Next(p, run[t - 1], run[t - 1 + 1]);
      var m :| Moves(p, run[t - 1], m, run[t]);
      MoveIsGood(p, run[t - 1], m, run[t]);
    }
  }

  // ---- Runs end ----

  function Flag(b: bool): nat { if b then 0 else 1 }

  /** Notices of peers below n that have not been given. */
  function PeersUntold(told: set<Notice>, n: nat): nat
    requires n <= 0x100
  {
    if n == 0 then 0
    else PeersUntold(told, n - 1) + Flag(SeePeer(n - 1) in told) + Flag(EndPeer(n - 1, None) in told)
  }

  function Untold(told: set<Notice>, n: nat): nat
    requires n <= 0x100
  {
    Flag(SeeControl in told) + Flag(EndControl in told) + PeersUntold(told, n)
  }

  predicate About(x: Notice, n: nat) { (x.SeePeer? || x.EndPeer?) ==> x.i < n }

  lemma {:induction false} PeersToldDrops(told: set<Notice>, x: Notice, n: nat)
    requires n <= 0x100
    ensures PeersUntold(told + {x}, n) <= PeersUntold(told, n)
    ensures x !in told && (x.SeePeer? || x.EndPeer?) && x == Plain(x) && x.i < n ==>
              PeersUntold(told + {x}, n) < PeersUntold(told, n)
  {
    if n > 0 {
      PeersToldDrops(told, x, n - 1);
    }
  }

  lemma ToldDrops(told: set<Notice>, x: Notice, n: nat)
    requires n <= 0x100 && x !in told && x == Plain(x) && About(x, n)
    ensures Untold(told + {x}, n) < Untold(told, n)
  {
    PeersToldDrops(told, x, n);
    hide PeersUntold;
  }

  lemma {:induction false} AllUntold(n: nat)
    requires n <= 0x100
    ensures PeersUntold({}, n) == 2 * n
  {
    if n > 0 {
      AllUntold(n - 1);
    }
  }

  /** The work and the fail calls on their way. */
  ghost function Load(p: Plan, s: System): nat
    requires p.n <= 0x100 && s.routed <= |s.ctrl|
  {
    2 * DE.Left(p, s) + |s.rcv.callers.fails|
  }

  /** What is left to do, with the closing and the notices. */
  ghost function Todo(p: Plan, s: State): nat
    requires p.n <= 0x100 && s.sys.routed <= |s.sys.ctrl|
  {
    Load(p, s.sys) + 2 * Untold(s.told, p.n) + Flag(s.ctrlClosed) + if s.peersClosed <= p.n then p.n - s.peersClosed else 0
  }

  lemma WorkReports(p: Plan, s: System, e: Transfer.Event, s': System)
    requires |p.file| < TWO64 && Step(p, s, e, s')
    ensures |s'.rcv.callers.fails| <= |s.rcv.callers.fails| + 1
    ensures DE.Skips(e) ==> |s'.rcv.callers.fails| < |s.rcv.callers.fails|
  {
    hide R.TakeControl, R.DoPeer, R.CanPeer, R.Can, H.Do, H.Can, P.Step;
    match e {
      case Route(ok) => RoutedReport(s.rcv, s.ctrl[s.routed], ok);
      case Install(i, ok) => PeerReport(Setup(p), s.rcv, i, R.Install(ok));
      case Take(i) => PeerReport(Setup(p), s.rcv, i, R.Deliver(s.pipe.sent[i][s.taken[i]]));
      case Local(a) => OneReport(Setup(p), s.rcv, a);
      case _ =>
    }
    hide R.Do;
  }

  lemma MoveLowers(p: Plan, s: State, m: Move, s': State)
    requires Good(p, s) && Moves(p, s, m, s')
    ensures p.n <= 0x100 && s.sys.routed <= |s.sys.ctrl| && s'.sys.routed <= |s'.sys.ctrl|
    ensures Todo(p, s') < Todo(p, s)
  {
    hide Inv, SenderWell, OnCourse, TT.CompleteOk, Step, LocalStep, Ordinary, MayBeTold, Untold, DE.Left, Load,
      IsClosed;
    GoodBound(p, s);
    match m {
      case Work(e) =>
        GoodSender(p, s.sys);
        WorkLowers(p, s.sys, e, s'.sys);
      case Tell(x) =>
        TellLowers(p, s.sys, x, s'.sys);
        ToldDrops(s.told, Plain(x), p.n);
      case _ =>
    }
  }

  lemma GoodSender(p: Plan, s: System)
    requires OnCourse(p, s)
    ensures SenderWell(s)
  {
    hide SenderWell, Smooth;
  }

  lemma WorkLowers(p: Plan, s: System, e: Transfer.Event, s': System)
    requires Inv(p, s) && SenderWell(s) && Ordinary(e) && Step(p, s, e, s')
    ensures p.n <= 0x100 && s.routed <= |s.ctrl| && s'.routed <= |s'.ctrl| && Load(p, s') < Load(p, s)
  {
    DE.RoutedBound(p, s);
    DE.PeersBound(p, s);
    hide Inv, SenderWell, Step, Ordinary, DE.Left;
    DE.StepLowers(p, s, e, s');
    WorkReports(p, s, e, s');
  }

  lemma TellLowers(p: Plan, s: System, x: Notice, s': System)
    requires Inv(p, s) && LocalStep(p, s, ActionOf(x), s')
    ensures p.n <= 0x100 && s.routed <= |s.ctrl| && s'.routed <= |s'.ctrl| && Load(p, s') <= Load(p, s) + 1
    ensures About(x, p.n)
  {
    DE.RoutedBound(p, s);
    DE.PeersBound(p, s);
    ToldIsAStep(p, s, x, s');
    hide Inv, LocalStep, DE.Left;
    WorkReports(p, s, Local(ActionOf(x)), s');
    DE.NoticeLowers(p, s, x, s');
    ToldAbout(p, s, x, s');
  }

  lemma ToldAbout(p: Plan, s: System, x: Notice, s': System)
    requires Inv(p, s) && LocalStep(p, s, ActionOf(x), s')
    ensures About(x, p.n)
  {
    match x {
      case SeePeer(i) => PeerTold(p, s, i, R.Closed, s');
      case EndPeer(i, reason) => PeerTold(p, s, i, R.Breaks(reason), s');
      case _ =>
    }
    hide Inv, LocalStep;
    if x.SeePeer? || x.EndPeer? { TR.HandlerMeans(p, s, x.i); }
  }

  lemma {:induction false} RunIsShort(p: Plan, run: seq<State>, t: nat)
    requires IsRun(p, run) && t < |run|
    ensures p.n <= 0x100 && run[t].sys.routed <= |run[t].sys.ctrl| && run[0].sys.routed <= |run[0].sys.ctrl|
    ensures t + Todo(p, run[t]) <= Todo(p, run[0])
  {
    hide Good, Moves, Start, Todo;
    if t == 0 {
      RunIsGood(p, run, 0);
      GoodBound(p, run[0]);
    } else {
      RunIsShort(p, run, t - 1);
      RunIsGood(p, run, t - 1);
      assert Next(p, run[t - 1], run[t - 1 + 1]);
      var m :| Moves(p, run[t - 1], m, run[t]);
      MoveLowers(p, run[t - 1], m, run[t]);
    }
  }

  lemma GoodBound(p: Plan, s: State)
    requires Good(p, s)
    ensures p.n <= 0x100 && s.sys.routed <= |s.sys.ctrl|
  {
    hide Inv, OnCourse, TT.CompleteOk;
    DE.RoutedBound(p, s.sys);
    DE.PeersBound(p, s.sys);
  }

  /** No run is longer than this. */
  function Longest(p: Plan): nat { 2 * |p.file| + 240 * PT.PiecesLeft(|p.file|, 0) + 87 * p.n + 306 }

  lemma FreshTodo(p: Plan, s: State)
    requires ValidPlan(p) && Start(p, s)
    ensures s.sys.routed <= |s.sys.ctrl| && Todo(p, s) + 1 == Longest(p)
  {
    hide DE.Left, PT.PiecesLeft;
    DE.FreshLeft(p, s.sys);
    AllUntold(p.n);
    hide Init, PeersUntold;
  }

  /**
   * However the routines interleave and whenever the sender closes its channels, the run is no longer
   * than a bound given by the file and the number of peers, and until done is closed some ordinary
   * step can be taken: a run that takes such steps as long as there are any closes done.
   */
  lemma TransferEnds(p: Plan, run: seq<State>)
    requires IsRun(p, run)
    ensures |run| <= Longest(p)
    ensures !DP.CanGo(p, Last(run).sys) ==> Last(run).sys.rcv.gate.doneCloses == 1
  {
    hide Todo, Longest, DP.CanGo, Inv, OnCourse, TT.CompleteOk, Start;
    FreshTodo(p, run[0]);
    RunIsShort(p, run, |run| - 1);
    RunIsGood(p, run, |run| - 1);
    DoneOnce(p, Last(run).sys);
    if Last(run).sys.rcv.gate.doneCloses == 0 { DP.AlwaysGoes(p, Last(run).sys); }
  }

  lemma DoneOnce(p: Plan, s: System)
    requires Inv(p, s)
    ensures s.rcv.gate.doneCloses <= 1
  {
    assert RP.GateOk(Setup(p), s.rcv.out.meta, s.rcv.gate);
  }

  // ---- What decides ----

  lemma MoveSettles(p: Plan, s: State, m: Move, s': State)
    requires Good(p, s) && |p.file| < TWO64 && Moves(p, s, m, s')
    ensures SD.Settled(s.sys.rcv, s'.sys.rcv)
  {
    hide Inv, OnCourse, TT.CompleteOk, Step, Ordinary, MayBeTold, LocalStep, SD.Settled;
    match m {
      case Work(e) => TT.StepSettles(p, s.sys, e, s'.sys);
      case Tell(x) =>
        ToldIsAStep(p, s.sys, x, s'.sys);
        TT.StepSettles(p, s.sys, Local(ActionOf(x)), s'.sys);
      case _ => TT.SelfSettled(p, s.sys);
    }
  }

  lemma {:induction false} RunSettles(p: Plan, run: seq<State>, i: nat, j: nat)
    requires IsRun(p, run) && i <= j < |run|
    ensures SD.Settled(run[i].sys.rcv, run[j].sys.rcv)
    decreases j
  {
    hide Inv, OnCourse, TT.CompleteOk, Moves, Start, SD.Settled;
    RunIsGood(p, run, i);
    if i < j {
      RunSettles(p, run, i, j - 1);
      RunIsGood(p, run, j - 1);
      assert Next(p, run[j - 1], run[j - 1 + 1]);
      var m :| Moves(p, run[j - 1], m, run[j]);
      MoveSettles(p, run[j - 1], m, run[j]);
      TT.SettledChain(p, run[i].sys, run[j - 1].sys, run[j].sys);
    } else {
      TT.SelfSettled(p, run[i].sys);
    }
  }

  /** Whoever takes the gate is a fail call, with the result, or a verification that has passed its tests. */
  lemma TakesTheGate(u: R.Setup, r: R.Receiver, a: R.Action)
    requires R.Can(r, a) && r.gate.at.Free? && !R.Do(u, r, a).gate.at.Free?
    ensures a.Call?
    ensures var d := R.Do(u, r, a);
            || (d.gate.result.Some? && a.call.EnterFail? && a.call.error in r.callers.fails)
            || (d.gate.at == R.Held(R.VerifySweep)
                && exists k :: 0 <= k < |r.callers.verifiers| && r.callers.verifiers[k].Entering?)
  {
    hide R.TakeControl, R.DoNegotiate, R.CanNegotiate, R.DoPeer, R.CanPeer, R.DoCall, R.CanCall, R.HoldStep;
    match a {
      case Control(f, ok) => RP.ControlFrame(r, f, ok);
      case Negotiate(id, x) => RP.NegotiateFrame(r, id, x);
      case Peer(id, x) => RP.PeerFrame(u, r, id, x);
      case Call(x) => CallTakesTheGate(r, x);
      case Hold(_) =>
    }
  }

  lemma CallTakesTheGate(r: R.Receiver, a: R.CallAct)
    requires R.CanCall(r, a) && r.gate.at.Free? && !R.DoCall(r, a).gate.at.Free?
    ensures var d := R.DoCall(r, a);
            || (d.gate.result.Some? && a.EnterFail? && a.error in r.callers.fails)
            || (d.gate.at == R.Held(R.VerifySweep)
                && exists k :: 0 <= k < |r.callers.verifiers| && r.callers.verifiers[k].Entering?)
  {
    hide R.DoVerify, R.CanVerify;
    if a.Verify? { EnterTakesTheGate(r, a.k, a.step); }
  }

  lemma EnterTakesTheGate(r: R.Receiver, k: nat, a: R.VerifyAct)
    requires R.CanVerify(r, k, a) && r.gate.at.Free? && !R.DoVerify(r, k, a).gate.at.Free?
    ensures R.DoVerify(r, k, a).gate.at == R.Held(R.VerifySweep)
    ensures k < |r.callers.verifiers| && r.callers.verifiers[k].Entering?
  {
    hide R.VerifierNext;
  }

  /** A taken gate without a result was taken by a verification. */
  lemma {:induction false} TakenByVerifier(p: Plan, run: seq<State>, t: nat) returns (k: nat)
    requires IsRun(p, run) && t < |run| && !run[t].sys.rcv.gate.at.Free? && Healthy(run[t].sys)
    ensures k <= t && run[k].sys.rcv.gate.at == R.Held(R.VerifySweep)
    decreases t
  {
    hide Good, Moves, SD.Settled, Init;
    if t == 0 {
      k := 0;
      FreshGate(p, run[0]);
    } else {
      var s, s' := run[t - 1], run[t];
      assert Next(p, run[t - 1], run[t - 1 + 1]);
      var m :| Moves(p, s, m, s');
      if s.sys.rcv.gate.at.Free? {
        k := t;
        VerifierTook(p, s, m, s');
      } else {
        RunSettles(p, run, t - 1, t);
        StillHealthy(s.sys.rcv, s'.sys.rcv);
        k := TakenByVerifier(p, run, t - 1);
      }
    }
  }

  lemma FreshGate(p: Plan, s: State)
    requires Start(p, s)
    ensures s.sys.rcv.gate.at.Free? && Healthy(s.sys)
  {
  }

  lemma StillHealthy(r: R.Receiver, d: R.Receiver)
    requires SD.Settled(r, d) && d.gate.result.None?
    ensures r.gate.result.None?
  {
  }

  lemma VerifierTook(p: Plan, s: State, m: Move, s': State)
    requires |p.file| < TWO64 && Moves(p, s, m, s') && s.sys.rcv.gate.at.Free? && !s'.sys.rcv.gate.at.Free?
             && Healthy(s'.sys)
    ensures s'.sys.rcv.gate.at == R.Held(R.VerifySweep)
  {
    hide Ordinary, MayBeTold, Step, LocalStep, R.Do, R.Can;
    match m {
      case Work(e) => TookBy(p, s.sys, e, s'.sys);
      case Tell(x) =>
        ToldIsAStep(p, s.sys, x, s'.sys);
        TookBy(p, s.sys, Local(ActionOf(x)), s'.sys);
      case _ =>
    }
  }

  lemma TookBy(p: Plan, s: System, e: Transfer.Event, s': System)
    requires |p.file| < TWO64 && Step(p, s, e, s') && s.rcv.gate.at.Free? && !s'.rcv.gate.at.Free? && Healthy(s')
    ensures s'.rcv.gate.at == R.Held(R.VerifySweep)
    ensures exists k :: 0 <= k < |s.rcv.callers.verifiers| && s.rcv.callers.verifiers[k].Entering?
  {
    TT.ReceiverSteps(p, s, e, s');
    hide Step, R.Do, R.Can;
    var a :| R.Can(s.rcv, a) && s'.rcv == R.Do(Setup(p), s.rcv, a);
    TakesTheGate(Setup(p), s.rcv, a);
  }

  /**
   * The outcome, exactly: when done is closed the result is nil if and only if a verification has taken
   * the gate, and then the output is the file and is kept; otherwise the closing of a channel has
   * failed the transfer, and the output is removed if it has a path.
   */
  lemma VerifierOrClose(p: Plan, run: seq<State>, t: nat)
    requires IsRun(p, run) && t < |run| && run[t].sys.rcv.gate.doneCloses == 1
    ensures var g := run[t].sys.rcv.gate;
            && (g.result.None? <==> exists k :: 0 <= k <= t && run[k].sys.rcv.gate.at == R.Held(R.VerifySweep))
            && (g.result.None? ==> run[t].sys.rcv.out.sink == p.file && !g.removed)
            && (g.result.Some? ==> CloseError(g.result.value) && (g.removed <==> g.hasPath))
  {
    hide Start, Moves, CloseError, SenderWell, Smooth;
    RunIsGood(p, run, t);
    var s := run[t].sys;
    DoneMeans(p, s);
    if s.rcv.gate.result.None? {
      var k := TakenByVerifier(p, run, t);
    }
    forall k | 0 <= k <= t && run[k].sys.rcv.gate.at == R.Held(R.VerifySweep) ensures s.rcv.gate.result.None? {
      VerifierWins(p, run, k, t);
    }
  }

  lemma DoneMeans(p: Plan, s: System)
    requires Inv(p, s) && s.rcv.gate.doneCloses == 1
    ensures !s.rcv.gate.at.Free? && (s.rcv.gate.removed <==> s.rcv.gate.result.Some? && s.rcv.gate.hasPath)
    ensures Healthy(s) ==> s.rcv.out.sink == p.file
  {
    assert RP.GateOk(Setup(p), s.rcv.out.meta, s.rcv.gate);
    hide PP.Inv, RP.Inv, PeersOk, MetaOk;
    if Healthy(s) { AllCounted(p, s); }
  }

  /** Once a verification holds the gate nothing that is closed can fail the transfer any more. */
  lemma VerifierWins(p: Plan, run: seq<State>, k: nat, t: nat)
    requires IsRun(p, run) && k <= t < |run| && run[k].sys.rcv.gate.at == R.Held(R.VerifySweep)
    ensures Healthy(run[t].sys)
  {
    hide Start, Moves, Inv, Smooth, SenderWell;
    RunIsGood(p, run, k);
    RunIsGood(p, run, t);
    RunSettles(p, run, k, t);
    assert Healthy(run[k].sys) by { VerifyingIsOpen(p, run[k].sys); }
  }

  lemma VerifyingIsOpen(p: Plan, s: System)
    requires Inv(p, s) && s.rcv.gate.at == R.Held(R.VerifySweep)
    ensures Healthy(s)
  {
    assert RP.GateOk(Setup(p), s.rcv.out.meta, s.rcv.gate);
  }

  // ---- Closes that come late enough ----

  /** A notice that makes nobody call fail. */
  predicate Silent(s: System, x: Notice) {
    match x
    case SeeControl => s.rcv.gate.doneCloses > 0
    case EndControl => true
    case SeePeer(_) => s.rcv.gate.doneCloses > 0 || (s.rcv.out.meta.Some? && s.rcv.out.bytesWritten >= s.rcv.out.meta.value.fileSize)
    case EndPeer(_, reason) => reason.None?
  }

  predicate Harmless(s: System, m: Move) { m.Tell? ==> !s.rcv.gate.at.Free? || Silent(s, m.notice) }

  ghost predicate HarmlessNext(p: Plan, s: State, s': State)
    requires |p.file| < TWO64
  {
    exists m :: Harmless(s.sys, m) && Moves(p, s, m, s')
  }

  /** A run in which no notice that would fail the transfer comes while the gate is free. */
  ghost predicate IsHarmlessRun(p: Plan, run: seq<State>) {
    && ValidPlan(p) && |p.file| < TWO63 && run != [] && Start(p, run[0])
    && forall k :: 0 <= k < |run| - 1 ==> HarmlessNext(p, run[k], run[k + 1])
  }

  lemma HarmlessIsARun(p: Plan, run: seq<State>)
    requires IsHarmlessRun(p, run)
    ensures IsRun(p, run)
  {
    hide Start, Moves, Harmless;
    forall k | 0 <= k < |run| - 1 ensures Next(p, run[k], run[k + 1]) {
      assert HarmlessNext(p, run[k], run[k + 1]);
    }
  }

  /** Nothing has failed, and nobody calls fail as long as the gate is free. */
  ghost predicate Unharmed(s: System) {
    Healthy(s) && (s.rcv.gate.at.Free? ==> s.rcv.callers.fails == multiset{})
  }

  lemma HarmlessMove(p: Plan, s: State, m: Move, s': State)
    requires |p.file| < TWO63 && Good(p, s) && Unharmed(s.sys) && Moves(p, s, m, s') && Harmless(s.sys, m)
    ensures Unharmed(s'.sys)
  {
    MoveSettles(p, s, m, s');
    hide Inv, Smooth, SenderWell, TT.CompleteOk, Step, Ordinary, MayBeTold, LocalStep, Silent, SD.Settled;
    match m {
      case Work(e) =>
        StepSmooth(p, s.sys, e, s'.sys);
        WorkUnharmed(p, s.sys, e, s'.sys);
      case Tell(x) =>
        NoticeSmooth(p, s.sys, x, s'.sys);
        HealthyNow(p, s'.sys);
        ToldUnharmed(p, s.sys, x, s'.sys);
      case _ =>
    }
  }

  lemma WorkUnharmed(p: Plan, s: System, e: Transfer.Event, s': System)
    requires |p.file| < TWO64 && Unharmed(s) && Step(p, s, e, s') && NoNewFails(s, s') && SD.Settled(s.rcv, s'.rcv)
    requires Decided(s, e, s') || Smooth(p, s')
    ensures Unharmed(s')
  {
    hide SenderWell, SmoothSender, SmoothPipe, CompleteLinks, OffersRouted, AnswersSent, LoopsOk, Signalled;
    hide SendStep, PumpStep, HearStep, RouteStep, InstallStep, TakeStep, R.DoCall;
  }

  lemma ToldUnharmed(p: Plan, s: System, x: Notice, s': System)
    requires Unharmed(s) && LocalStep(p, s, ActionOf(x), s') && (!s.rcv.gate.at.Free? || Silent(s, x)) && Healthy(s')
    requires SD.Settled(s.rcv, s'.rcv)
    ensures Unharmed(s')
  {
    hide R.Examine, R.PutAt;
  }

  lemma {:induction false} HarmlessIsUnharmed(p: Plan, run: seq<State>, t: nat)
    requires IsHarmlessRun(p, run) && t < |run|
    ensures Good(p, run[t]) && Unharmed(run[t].sys)
  {
    hide Good, Moves, Start, Harmless, Unharmed;
    HarmlessIsARun(p, run);
    RunIsGood(p, run, t);
    if t == 0 {
      FreshUnharmed(p, run[0]);
    } else {
      HarmlessIsUnharmed(p, run, t - 1);
      assert HarmlessNext(p, run[t - 1], run[t - 1 + 1]);
      var m :| Harmless(run[t - 1].sys, m) && Moves(p, run[t - 1], m, run[t]);
      HarmlessMove(p, run[t - 1], m, run[t]);
    }
  }

  lemma FreshUnharmed(p: Plan, s: State)
    requires Start(p, s)
    ensures Unharmed(s.sys)
  {
  }

  /**
   * Total correctness: if no channel's close is reported before a verification holds the gate, then
   * however the routines interleave the run is no longer than its bound, and when no ordinary step is
   * left done is closed, the result is nil, and the output is the file, byte for byte, and is kept.
   */
  lemma FileArrives(p: Plan, run: seq<State>)
    requires IsHarmlessRun(p, run)
    ensures |run| <= Longest(p)
    ensures var last := Last(run).sys;
            !DP.CanGo(p, last) ==>
              last.rcv.gate.doneCloses == 1 && last.rcv.gate.result.None? && last.rcv.out.sink == p.file && !last.rcv.gate.removed
  {
    hide Longest, DP.CanGo, Start, Moves, Good;
    HarmlessIsARun(p, run);
    TransferEnds(p, run);
    HarmlessIsUnharmed(p, run, |run| - 1);
    if !DP.CanGo(p, Last(run).sys) { VerifierOrClose(p, run, |run| - 1); }
  }

  // ---- Continuing a run ----

  lemma NextWork(p: Plan, s: State) returns (s': State)
    requires |p.file| < TWO64 && DP.CanGo(p, s.sys)
    ensures HarmlessNext(p, s, s') && s' == s.(sys := s'.sys)
  {
    hide Ordinary, Step;
    var e, sys :| Ordinary(e) && Step(p, s.sys, e, sys);
    s' := s.(sys := sys);
    assert Harmless(s.sys, Work(e)) && Moves(p, s, Work(e), s');
  }

  lemma LongerHarmless(p: Plan, run: seq<State>, s': State)
    requires IsHarmlessRun(p, run) && HarmlessNext(p, Last(run), s')
    ensures IsHarmlessRun(p, run + [s'])
  {
    hide HarmlessNext, Start;
    var more := run + [s'];
    forall k | 0 <= k < |more| - 1 ensures HarmlessNext(p, more[k], more[k + 1]) {
      if k < |run| - 1 {
        assert HarmlessNext(p, run[k], run[k + 1]);
      }
    }
  }

  /** From state t on nothing more is closed or told. */
  ghost predicate OnlyWork(run: seq<State>, t: nat)
    requires t < |run|
  {
    forall k :: t <= k < |run| ==> run[k] == run[t].(sys := run[k].sys)
  }

  /** As long as no close has done harm the transfer can be finished by ordinary steps alone, with the file delivered. */
  lemma RunCanBeFinished(p: Plan, run: seq<State>) returns (full: seq<State>)
    requires IsHarmlessRun(p, run)
    ensures IsHarmlessRun(p, full) && run <= full && OnlyWork(full, |run| - 1)
    ensures var last := Last(full).sys;
            last.rcv.gate.doneCloses == 1 && last.rcv.gate.result.None? && last.rcv.out.sink == p.file
    decreases Longest(p) - |run|
  {
    hide DP.CanGo, Longest, Start, HarmlessNext;
    FileArrives(p, run);
    if DP.CanGo(p, Last(run).sys) {
      var s' := NextWork(p, Last(run));
      LongerHarmless(p, run, s');
      FileArrives(p, run + [s']);
      full := RunCanBeFinished(p, run + [s']);
      assert full[|run|] == s' && full[|run| - 1] == Last(run);
    } else {
      full := run;
    }
  }

  // ---- Closes that come too early ----

  lemma Longer(p: Plan, run: seq<State>, s': State)
    requires IsRun(p, run) && Next(p, Last(run), s')
    ensures IsRun(p, run + [s'])
  {
    hide Next, Start;
    var more := run + [s'];
    forall k | 0 <= k < |more| - 1 ensures Next(p, more[k], more[k + 1]) {
      if k < |run| - 1 {
        assert Next(p, run[k], run[k + 1]);
      }
    }
  }

  lemma CallOn(p: Plan, run: seq<State>, a: R.CallAct) returns (more: seq<State>)
    requires IsRun(p, run) && OrdinaryLocal(R.Call(a)) && R.CanCall(Last(run).sys.rcv, a)
    ensures IsRun(p, more) && run <= more && Last(more).sys.rcv == R.DoCall(Last(run).sys.rcv, a)
  {
    hide Start, Next, R.CanCall, R.DoCall, OrdinaryLocal;
    var s := Last(run);
    var s' := s.(sys := s.sys.(rcv := R.DoCall(s.sys.rcv, a)));
    CallIsAMove(p, s, a, s');
    Longer(p, run, s');
    more := run + [s'];
  }

  lemma CallIsAMove(p: Plan, s: State, a: R.CallAct, s': State)
    requires |p.file| < TWO64 && OrdinaryLocal(R.Call(a)) && R.CanCall(s.sys.rcv, a)
    requires s' == s.(sys := s.sys.(rcv := R.DoCall(s.sys.rcv, a)))
    ensures Next(p, s, s')
  {
    hide R.CanCall, R.DoCall, OrdinaryLocal;
    assert LocalStep(p, s.sys, R.Call(a), s'.sys);
    assert Moves(p, s, Work(Local(R.Call(a))), s');
  }

  lemma HoldOn(p: Plan, run: seq<State>, a: R.HoldAct) returns (more: seq<State>)
    requires IsRun(p, run) && OrdinaryLocal(R.Hold(a)) && R.CanHold(Last(run).sys.rcv.out, Last(run).sys.rcv.gate, a)
    ensures IsRun(p, more) && run <= more && Last(more).sys.rcv.out == Last(run).sys.rcv.out
    ensures Last(more).sys.rcv.gate == R.HoldStep(Setup(p), Last(run).sys.rcv.out, Last(run).sys.rcv.gate, a)
  {
    hide Start, Next, R.CanHold, R.HoldStep, OrdinaryLocal;
    var s := Last(run);
    var s' := s.(sys := s.sys.(rcv := R.DoHold(Setup(p), s.sys.rcv, a)));
    HoldIsAMove(p, s, a, s');
    Longer(p, run, s');
    more := run + [s'];
  }

  lemma HoldIsAMove(p: Plan, s: State, a: R.HoldAct, s': State)
    requires |p.file| < TWO64 && OrdinaryLocal(R.Hold(a)) && R.CanHold(s.sys.rcv.out, s.sys.rcv.gate, a)
    requires s' == s.(sys := s.sys.(rcv := R.DoHold(Setup(p), s.sys.rcv, a)))
    ensures Next(p, s, s')
  {
    hide R.CanHold, R.DoHold, OrdinaryLocal;
    assert LocalStep(p, s.sys, R.Hold(a), s'.sys);
    assert Moves(p, s, Work(Local(R.Hold(a))), s');
  }

  /** A fail that has entered the gate sweeps, aborts the file and closes done. */
  lemma FailureEnds(p: Plan, run: seq<State>) returns (full: seq<State>)
    requires IsRun(p, run) && Last(run).sys.rcv.gate.at == R.Held(R.FailSweep) && Last(run).sys.rcv.gate.doneCloses == 0
    ensures IsRun(p, full) && run <= full
    ensures var g, g' := Last(run).sys.rcv.gate, Last(full).sys.rcv.gate;
            g'.doneCloses == 1 && g'.result == g.result && g'.removed == g.hasPath
  {
    hide IsRun, Next;
    full := HoldOn(p, run, R.Sweep);
    full := HoldOn(p, full, R.Discard);
    full := HoldOn(p, full, R.Remove);
    full := HoldOn(p, full, R.Announce);
  }

  /**
   * As long as the gate is free the close can win: any run in which the sender has completed and nobody
   * has taken the gate can go on so that the close of the control channel decides the result, and the
   * output, whole or not, is removed.
   */
  lemma CloseCanWin(p: Plan, run: seq<State>) returns (full: seq<State>)
    requires IsRun(p, run) && Last(run).sys.pipe.main.Completed? && SeeControl !in Last(run).told
    requires Last(run).sys.rcv.gate.at.Free?
    ensures IsRun(p, full) && run <= full
    ensures var g := Last(full).sys.rcv.gate;
            g.doneCloses == 1 && g.result == Some(ClosedEarly) && g.removed == Last(run).sys.rcv.gate.hasPath
  {
    var r := Last(run).sys.rcv;
    hide IsRun, Next, Good, R.Report, R.DoCall;
    RunIsOpen(p, run);
    full := ControlCloses(p, run);
    full := ControlIsSeen(p, full);
    EarlyFail(r);
    full := CallOn(p, full, R.EnterFail(ClosedEarly));
    full := FailureEnds(p, full);
  }

  lemma RunIsOpen(p: Plan, run: seq<State>)
    requires IsRun(p, run) && Last(run).sys.rcv.gate.at.Free?
    ensures Last(run).sys.rcv.gate.doneCloses == 0
  {
    RunIsGood(p, run, |run| - 1);
    hide IsRun, OnCourse, Inv, TT.CompleteOk;
    FreeIsOpen(p, Last(run).sys);
  }

  /** The fail of an early close that finds the gate free takes it. */
  lemma EarlyFail(r: R.Receiver)
    requires r.gate.at.Free?
    ensures var d := R.Report(r, ClosedEarly);
            && R.CanCall(d, R.EnterFail(ClosedEarly))
            && R.DoCall(d, R.EnterFail(ClosedEarly)).gate
                 == r.gate.(result := Some(ClosedEarly), at := R.Held(R.FailSweep))
  {
  }

  lemma ControlCloses(p: Plan, run: seq<State>) returns (more: seq<State>)
    requires IsRun(p, run) && Last(run).sys.pipe.main.Completed?
    ensures IsRun(p, more) && run <= more && Last(more) == Last(run).(ctrlClosed := true)
  {
    hide Start, Next;
    more := run;
    if !Last(run).ctrlClosed {
      var s' := Last(run).(ctrlClosed := true);
      ClosingIsAMove(p, Last(run), s');
      Longer(p, run, s');
      more := run + [s'];
    }
  }

  lemma ClosingIsAMove(p: Plan, s: State, s': State)
    requires |p.file| < TWO64 && s.sys.pipe.main.Completed? && !s.ctrlClosed && s' == s.(ctrlClosed := true)
    ensures Next(p, s, s')
  {
    assert Moves(p, s, CloseControl, s');
  }

  lemma ControlIsSeen(p: Plan, run: seq<State>) returns (more: seq<State>)
    requires IsRun(p, run) && Last(run).ctrlClosed && Last(run).sys.pipe.main.Completed?
             && SeeControl !in Last(run).told
    requires Last(run).sys.rcv.gate.doneCloses == 0
    ensures IsRun(p, more) && run <= more && Last(more).sys.rcv == R.Report(Last(run).sys.rcv, ClosedEarly)
  {
    hide Start, Next, R.Report;
    var s := Last(run);
    var s' := s.(sys := s.sys.(rcv := R.Report(s.sys.rcv, ClosedEarly)), told := s.told + {SeeControl});
    SeeingIsAMove(p, s, s');
    Longer(p, run, s');
    more := run + [s'];
  }

  lemma SeeingIsAMove(p: Plan, s: State, s': State)
    requires |p.file| < TWO64 && s.ctrlClosed && s.sys.pipe.main.Completed? && SeeControl !in s.told
             && s.sys.rcv.gate.doneCloses == 0
    requires s' == s.(sys := s.sys.(rcv := R.Report(s.sys.rcv, ClosedEarly)), told := s.told + {SeeControl})
    ensures Next(p, s, s')
  {
    hide R.Report;
    assert LocalStep(p, s.sys, ActionOf(SeeControl), s'.sys);
    assert Moves(p, s, Tell(SeeControl), s');
  }

  lemma FreeIsOpen(p: Plan, s: System)
    requires Inv(p, s) && s.rcv.gate.at.Free?
    ensures s.rcv.gate.doneCloses == 0
  {
    assert RP.GateOk(Setup(p), s.rcv.out.meta, s.rcv.gate);
  }

  /** A new transfer to an output with a path. */
  function NewTransfer(p: Plan): State {
    var pipe := P.State(P.AtTop, 0, [], false, None, seq(p.n, _ => P.Starting), P.Waiting, map[], multiset{},
                        seq(p.n, _ => []), 0, false, [], 0);
    State(System(H.FreshSender(), pipe, R.FreshReceiver([], true), [], 0, 0,
                 seq(p.n, _ => 0), seq(p.n, _ => 0), seq(p.n, _ => 0)), false, 0, {})
  }

  lemma {:induction false} LastFree(run: seq<State>, t: nat) returns (k: nat)
    requires t < |run| && run[0].sys.rcv.gate.at.Free? && !run[t].sys.rcv.gate.at.Free?
    ensures k < t && run[k].sys.rcv.gate.at.Free? && !run[k + 1].sys.rcv.gate.at.Free?
    decreases t
  {
    if run[t - 1].sys.rcv.gate.at.Free? {
      k := t - 1;
    } else {
      k := LastFree(run, t - 1);
    }
  }

  /** When an undisturbed verification is about to enter the gate, the sender has completed and the output is whole. */
  lemma WholeBefore(p: Plan, s: State, s': State)
    requires |p.file| < TWO64 && Good(p, s) && Unharmed(s.sys) && Good(p, s') && Unharmed(s'.sys)
    requires Next(p, s, s') && s' == s.(sys := s'.sys)
    requires s.sys.rcv.gate.at.Free? && !s'.sys.rcv.gate.at.Free?
    ensures s.sys.pipe.main.Completed? && s.sys.rcv.out.sink == p.file
  {
    hide Smooth, SenderWell, Step, LocalStep, Ordinary, MayBeTold;
    var m :| Moves(p, s, m, s');
    assert m.Work?;
    TookBy(p, s.sys, m.event, s'.sys);
    EnteringMeans(p, s.sys);
    hide PP.Inv, RP.Inv, PeersOk, MetaOk, DataOk;
    AllCounted(p, s.sys);
  }

  lemma EnteringMeans(p: Plan, s: System)
    requires Inv(p, s) && Healthy(s) && exists k :: 0 <= k < |s.rcv.callers.verifiers| && s.rcv.callers.verifiers[k].Entering?
    ensures Enough(p, s.rcv.out) && TT.TakenUp(s.rcv)
  {
    hide PP.Inv, RP.Inv, PeersOk, MetaOk, Enough;
    TransferSteps.FlagsPart(p, s);
  }

  /**
   * The sender's regular close can delete a file that has arrived whole: for every plan there is a run
   * in which nothing was closed and nothing failed until the sender had completed and the output was
   * the file, byte for byte, and which ends with the result of an early close and the output removed.
   */
  lemma WholeFileCanBeLost(p: Plan) returns (run: seq<State>, k: nat)
    requires ValidPlan(p) && |p.file| < TWO63
    ensures IsRun(p, run) && k < |run| && IsHarmlessRun(p, run[..k + 1]) && !run[k].ctrlClosed && run[k].told == {}
    ensures run[k].sys.pipe.main.Completed? && run[k].sys.rcv.out.sink == p.file
    ensures var g := Last(run).sys.rcv.gate; g.doneCloses == 1 && g.result == Some(ClosedEarly) && g.removed
  {
    hide IsRun, IsHarmlessRun, NewTransfer, OnlyWork;
    var start := [NewTransfer(p)];
    NewRun(p);
    var full := RunCanBeFinished(p, start);
    k := LastBefore(p, full);
    var before := full[..k + 1];
    Prefix(p, full, k + 1);
    Undisturbed(p, full, k);
    HarmlessIsARun(p, before);
    run := CloseCanWin(p, before);
    assert run[k] == before[k] && run[..k + 1] == before;
  }

  lemma NewRun(p: Plan)
    requires ValidPlan(p) && |p.file| < TWO63
    ensures IsHarmlessRun(p, [NewTransfer(p)])
  {
    var s := NewTransfer(p);
    assert Start(p, s);
    hide Start, NewTransfer;
  }

  /** Where a delivered file's verification enters the gate. */
  lemma LastBefore(p: Plan, full: seq<State>) returns (k: nat)
    requires IsHarmlessRun(p, full) && Last(full).sys.rcv.gate.doneCloses == 1
    ensures k < |full| - 1 && full[k].sys.rcv.gate.at.Free? && !full[k + 1].sys.rcv.gate.at.Free?
  {
    hide HarmlessNext, Good;
    HarmlessIsARun(p, full);
    FreshGate(p, full[0]);
    RunIsGood(p, full, |full| - 1);
    GoodDone(p, Last(full));
    k := LastFree(full, |full| - 1);
  }

  /** What the transfer was when the verification was about to enter. */
  lemma Undisturbed(p: Plan, full: seq<State>, k: nat)
    requires IsHarmlessRun(p, full) && k < |full| - 1 && full[0] == NewTransfer(p) && OnlyWork(full, 0)
    requires full[k].sys.rcv.gate.at.Free? && !full[k + 1].sys.rcv.gate.at.Free?
    ensures full[k].sys.pipe.main.Completed? && full[k].sys.rcv.out.sink == p.file && full[k].sys.rcv.gate.hasPath
    ensures !full[k].ctrlClosed && full[k].told == {}
  {
    NewIsQuiet(p);
    hide NewTransfer, HarmlessNext, Next, Good, Unharmed, Start;
    HarmlessIsARun(p, full);
    HarmlessIsUnharmed(p, full, k);
    HarmlessIsUnharmed(p, full, k + 1);
    assert Next(p, full[k], full[k + 1]);
    WholeBefore(p, full[k], full[k + 1]);
    RunSettles(p, full, 0, k);
    SamePath(full[0].sys.rcv, full[k].sys.rcv);
  }

  lemma NewIsQuiet(p: Plan)
    ensures var s := NewTransfer(p); s.sys.rcv.gate.hasPath && !s.ctrlClosed && s.told == {}
  {
  }

  lemma GoodDone(p: Plan, s: State)
    requires Good(p, s) && s.sys.rcv.gate.doneCloses == 1
    ensures !s.sys.rcv.gate.at.Free?
  {
    hide OnCourse, TT.CompleteOk, Inv;
    DoneMeans(p, s.sys);
  }

  lemma SamePath(r: R.Receiver, d: R.Receiver)
    requires SD.Settled(r, d)
    ensures d.gate.hasPath == r.gate.hasPath
  {
  }

  lemma Prefix(p: Plan, run: seq<State>, n: nat)
    requires IsHarmlessRun(p, run) && 0 < n <= |run|
    ensures IsHarmlessRun(p, run[..n])
  {
    hide Start, HarmlessNext;
    forall k | 0 <= k < n - 1 ensures HarmlessNext(p, run[..n][k], run[..n][k + 1]) {
      assert HarmlessNext(p, run[k], run[k + 1]);
    }
  }
}
