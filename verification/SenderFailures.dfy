/**
 * What becomes of a multi-connection transfer when its sender fails: it aborts, the receiver can always
 * be told why, and no transfer that its sender has given up ever succeeds.
 */
module SenderFailures {
  import opened Bytes
  import opened Frames
  import opened Coders
  import opened Pieces
  import opened CoreSpec
  import opened Transfer
  import opened TransferProofs
  import H = Handshake
  import P = Pipeline
  import R = MultiReceiver
  import HP = HandshakeProofs
  import PP = PipelineProofs
  import PT = PipelineTheorems
  import RP = ReceiverProofs
  import TS = TransferSteps
  import TT = TransferTheorems
  import F = Failures

  // ---- The handshake ----

  /** What the handshake cannot get over. */
  predicate Breaks(s: H.Sender, e: H.Step)
    requires H.Can(s, e)
  {
    match e
    case SendMetadata(ok) => !ok
    case BuildPeers(ok) => !ok
    case TakeAnswer(ok) => !ok || s.queue[0].0 !in s.waiting
    case TakeError => true
    case TimeOut => true
    case _ => false
  }

  /**
   * The coordinating routine goes on to abort exactly after what it cannot get over, and stops exactly
   * after the abort or an opening that fails; an offering routine that fails queues one error, which the
   * coordinating routine can take as long as it waits for answers.
   */
  lemma FailureAborts(n: nat, s: H.Sender, e: H.Step, sent: nat)
    requires H.Can(s, e)
    ensures var d := H.Do(n, s, e, sent);
            && (d.stage.Aborting? <==> (s.stage.Aborting? && !e.SendAbort?) || Breaks(s, e))
            && (d.stage.Stopped? <==> s.stage.Stopped? || e.OpeningFails? || e.SendAbort?)
            && d.errors == s.errors + (if e.MakeFails? || (e.SendOffer? && !e.ok) then 1 else if e.TakeError? then -1 else 0)
            && (d.errors > 0 && d.stage.Collecting? && d.waiting != map[] ==> H.Can(d, H.TakeError))
  {
    hide H.PeersById;
  }

  /** A frame that the channel refuses does not get out. */
  lemma RefusedIsUnsent(m: Metadata, s: H.Sender, e: H.Step)
    requires H.Can(s, e)
    requires e == H.SendMetadata(false) || (e.SendOffer? && !e.ok) || (e.SendAbort? && !e.ok)
    ensures H.Sends(m, s, e) == []
  {
  }

  /** A step of the coordinating routine in negotiatePeers. */
  predicate Coordinates(e: H.Step) {
    e.TakeAnswer? || e.TakeError? || e.TimeOut? || e.LoopEnds? || e.OffersDone? || e.SeeOpen?
  }

  /**
   * What negotiatePeers waits for: the deadline counts while answers are missing and while channels are
   * not open, and nothing but the offering routines ends the wait for them, all of which must be through.
   */
  lemma WhatIsWaitedFor(s: H.Sender, e: H.Step)
    ensures H.Can(s, H.TimeOut) <==> (s.stage.Collecting? && s.waiting != map[]) || s.stage.Connecting?
    ensures s.stage.Joining? && Coordinates(e) && H.Can(s, e) ==>
              e.OffersDone? && forall i :: 0 <= i < |s.offerers| ==> !s.offerers[i].Making? && !s.offerers[i].Made?
    ensures s.stage.Collecting? && Coordinates(e) && H.Can(s, e) ==> (e.LoopEnds? <==> s.waiting == map[])
  {
  }

  // ---- Runs ----

  function Last(run: seq<System>): System
    requires run != []
  {
    run[|run| - 1]
  }

  lemma SomeStep(p: Plan, run: seq<System>, k: nat) returns (e: Transfer.Event)
    requires IsRun(p, run) && k + 1 < |run|
    ensures Step(p, run[k], e, run[k + 1])
  {
    hide Step;
    assert Next(p, run[k], run[k + 1]);
    e :| Step(p, run[k], e, run[k + 1]);
  }

  lemma Extends(p: Plan, run: seq<System>, e: Transfer.Event, s': System)
    requires IsRun(p, run) && Step(p, Last(run), e, s')
    ensures IsRun(p, run + [s'])
  {
    var more := run + [s'];
    hide Step, Init;
    forall k | 0 <= k < |more| - 1 ensures Next(p, more[k], more[k + 1]) {
      if k < |run| - 1 { assert Next(p, run[k], run[k + 1]); }
    }
  }

  lemma RunFacts(p: Plan, run: seq<System>)
    requires IsRun(p, run)
    ensures run != [] && |p.file| < TWO64
  {
  }

  /** The run with one more step. */
  lemma Push(p: Plan, run: seq<System>, e: Transfer.Event, s': System) returns (full: seq<System>)
    requires IsRun(p, run) && Step(p, Last(run), e, s')
    ensures IsRun(p, full) && run <= full && full != [] && Last(full) == s'
  {
    hide IsRun, Step;
    RunFacts(p, run);
    Extends(p, run, e, s');
    full := run + [s'];
  }

  // ---- A transfer that its sender has given up ----

  /** The sender will not complete the transfer any more. */
  predicate GaveUp(s: System) { HP.Ended(s.snd.stage) || s.pipe.main.Aborted? || s.pipe.main.CompleteFailed? }

  /** The pipeline runs only after a successful handshake. */
  predicate Ordered(s: System) { s.snd.stage.Running? || s.pipe.main.Waiting? }

  lemma StepKeepsOrder(p: Plan, s: System, e: Transfer.Event, s': System)
    requires |p.file| < TWO64 && Step(p, s, e, s') && Ordered(s)
    ensures Ordered(s') && (GaveUp(s) ==> GaveUp(s'))
  {
    hide R.TakeControl, R.DoPeer, R.CanPeer, R.Do, R.Can, H.Hear, P.Step, PipeSends;
    match e {
      case Send(x) => SenderGoes(p.n, s.snd, x, |s.ctrl|);
      case Pump(x, _) => FailedStays(PipeConfig(p), s.pipe, x, s'.pipe);
      case Hear => HearStage(p.n, s.snd, s.rcv.answers[s.heard].id, s.rcv.answers[s.heard].sdp);
      case _ =>
    }
  }

  lemma SenderGoes(n: nat, s: H.Sender, e: H.Step, sent: nat)
    requires H.Can(s, e)
    ensures HP.Ended(s.stage) ==> HP.Ended(H.Do(n, s, e, sent).stage)
    ensures s.stage.Running? ==> H.Do(n, s, e, sent).stage.Running?
  {
    hide H.PeersById;
  }

  lemma HearStage(n: nat, s: H.Sender, id: byte, sdp: bytes)
    ensures H.Hear(n, s, id, sdp).stage == s.stage
  {
  }

  lemma FailedStays(c: P.Config, s: P.State, e: P.Event, s': P.State)
    requires P.Step(c, s, e, s')
    ensures s.main.Aborted? || s.main.CompleteFailed? ==> s'.main == s.main
  {
    hide P.Zeros, P.FrameFor, PieceLen, P.AllOk, P.AllExited;
  }

  lemma {:induction false} RunKeepsOrder(p: Plan, run: seq<System>, i: nat, j: nat)
    requires IsRun(p, run) && i <= j < |run|
    ensures Ordered(run[j]) && (GaveUp(run[i]) ==> GaveUp(run[j]))
    decreases j
  {
    hide Step, GaveUp, Ordered;
    if j == 0 {
      FirstOrder(p, run);
    } else {
      var e := SomeStep(p, run, j - 1);
      RunKeepsOrder(p, run, if i < j then i else j - 1, j - 1);
      StepKeepsOrder(p, run[j - 1], e, run[j]);
    }
  }

  lemma FirstOrder(p: Plan, run: seq<System>)
    requires IsRun(p, run)
    ensures Ordered(run[0]) && run[0].rcv.callers.verifiers == [] && run[0].rcv.gate.at.Free? && run[0].ctrl == []
  {
  }

  /** Before the receiver has taken TRANSFER_COMPLETE no verification has the gate. */
  lemma {:induction false} UndecidedYet(p: Plan, run: seq<System>, t: nat)
    requires IsRun(p, run) && t < |run| && !TT.TakenUp(run[t].rcv)
    ensures F.Undecided(run[t].rcv.gate)
    decreases t
  {
    hide Step, F.Undecided;
    if t == 0 {
      FirstOrder(p, run);
      FreeUndecided(run[0].rcv.gate);
    } else {
      var e := SomeStep(p, run, t - 1);
      TT.RunKeepsInv(p, run, t - 1);
      NotTakenBefore(p, run[t - 1], e, run[t]);
      UndecidedYet(p, run, t - 1);
      UndecidedStep(p, run[t - 1], e, run[t]);
    }
  }

  lemma FreeUndecided(g: R.DoneGate)
    requires g.at.Free?
    ensures F.Undecided(g)
  {
  }

  lemma NotTakenBefore(p: Plan, s: System, e: Transfer.Event, s': System)
    requires |p.file| < TWO64 && Step(p, s, e, s') && !TT.TakenUp(s'.rcv)
    ensures !TT.TakenUp(s.rcv)
  {
    hide Step, R.Do, R.Can;
    TT.ReceiverSteps(p, s, e, s');
    if s'.rcv != s.rcv {
      var a :| R.Can(s.rcv, a) && s'.rcv == R.Do(Setup(p), s.rcv, a);
      F.SeenStays(Setup(p), s.rcv, a);
    }
  }

  lemma UndecidedStep(p: Plan, s: System, e: Transfer.Event, s': System)
    requires |p.file| < TWO64 && Step(p, s, e, s') && !TT.TakenUp(s.rcv) && !TT.TakenUp(s'.rcv) && F.Undecided(s.rcv.gate)
    ensures F.Undecided(s'.rcv.gate)
  {
    hide Step, R.Do, R.Can, F.Undecided;
    TT.ReceiverSteps(p, s, e, s');
    if s'.rcv != s.rcv {
      var a :| R.Can(s.rcv, a) && s'.rcv == R.Do(Setup(p), s.rcv, a);
      F.NoNewVerifier(Setup(p), s.rcv, a);
    }
  }

  /**
   * Once the sender has given up - in the handshake, because of a read or a worker, or because
   * TRANSFER_COMPLETE could not be sent - no transfer succeeds: whenever done closes at the receiver the
   * result is an error and the file is removed if it has a path.
   */
  lemma FailureIsFatal(p: Plan, run: seq<System>, i: nat, j: nat)
    requires IsRun(p, run) && i <= j < |run| && GaveUp(run[i])
    ensures !run[j].rcv.completeSeen && !run[j].pipe.main.Completed?
    ensures var g := run[j].rcv.gate; g.doneCloses == 1 ==> g.result.Some? && (g.removed <==> g.hasPath)
  {
    hide IsRun, Inv;
    RunKeepsOrder(p, run, i, j);
    TT.RunKeepsComplete(p, run, j);
    UndecidedYet(p, run, j);
    TT.RunKeepsInv(p, run, j);
    GateWithResult(p, run[j]);
  }

  lemma GateWithResult(p: Plan, s: System)
    requires Inv(p, s)
    ensures s.rcv.gate.at.Free? ==> s.rcv.gate.doneCloses == 0
    ensures s.rcv.gate.doneCloses == 1 ==> (s.rcv.gate.removed <==> s.rcv.gate.result.Some? && s.rcv.gate.hasPath)
  {
    assert RP.GateOk(Setup(p), s.rcv.out.meta, s.rcv.gate);
  }

  // ---- The reason arrives ----

  /** An ABORT is the last thing its sender says, and TRANSFER_COMPLETE means that the pipeline has completed. */
  ghost predicate ClosingOk(s: System) {
    && ((exists k :: 0 <= k < |s.ctrl| && s.ctrl[k].Abort?) ==> s.snd.stage.Stopped? || s.pipe.main.Aborted?)
    && ((exists k :: 0 <= k < |s.ctrl| && s.ctrl[k].Complete?) ==> s.pipe.main.Completed?)
  }

  lemma StepKeepsClosing(p: Plan, s: System, e: Transfer.Event, s': System)
    requires |p.file| < TWO64 && Step(p, s, e, s') && ClosingOk(s)
    ensures ClosingOk(s')
  {
    hide R.TakeControl, R.DoPeer, R.CanPeer, R.Do, R.Can, H.Hear, P.Step;
    match e {
      case Send(x) => SendCloses(Announced(p), p.n, s.snd, x, |s.ctrl|);
      case Pump(x, _) =>
        FailedStays(PipeConfig(p), s.pipe, x, s'.pipe);
        TT.PipeStays(PipeConfig(p), s.pipe, x, s'.pipe);
      case Hear => HearStage(p.n, s.snd, s.rcv.answers[s.heard].id, s.rcv.answers[s.heard].sdp);
      case _ =>
    }
  }

  lemma SendCloses(m: Metadata, n: nat, s: H.Sender, e: H.Step, sent: nat)
    requires H.Can(s, e)
    ensures forall f :: f in H.Sends(m, s, e) ==> !f.Complete? && (f.Abort? ==> H.Do(n, s, e, sent).stage.Stopped?)
    ensures s.stage.Stopped? ==> H.Do(n, s, e, sent).stage.Stopped?
  {
    hide H.PeersById;
  }

  lemma {:induction false} RunKeepsClosing(p: Plan, run: seq<System>, t: nat)
    requires IsRun(p, run) && t < |run|
    ensures ClosingOk(run[t])
  {
    hide Step, ClosingOk;
    if t == 0 {
      FirstOrder(p, run);
      NothingSaid(run[0]);
    } else {
      var e := SomeStep(p, run, t - 1);
      RunKeepsClosing(p, run, t - 1);
      StepKeepsClosing(p, run[t - 1], e, run[t]);
    }
  }

  lemma NothingSaid(s: System)
    requires s.ctrl == []
    ensures ClosingOk(s)
  {
  }

  /** The frames on the control channel that the receiver has yet to take up to k are METADATA and offers. */
  ghost predicate Plain(s: System, k: nat) {
    k <= |s.ctrl| && forall i :: s.routed <= i < k ==> s.ctrl[i].Meta? || s.ctrl[i].Offer?
  }

  /** Only the receiver has moved. */
  ghost predicate OnlyRouted(s: System, s': System) {
    s' == s.(rcv := s'.rcv, routed := s'.routed) && s'.rcv.gate == s.rcv.gate && s'.rcv.routing
  }

  /** The receiver's control loop has taken the next frame. */
  function Routed(s: System): System
    requires s.routed < |s.ctrl|
  {
    s.(rcv := R.TakeControl(s.rcv, s.ctrl[s.routed], true), routed := s.routed + 1)
  }

  /** The receiver can take METADATA and offers until it gets to frame k. */
  lemma {:induction false} RouteUpTo(p: Plan, run: seq<System>, k: nat) returns (full: seq<System>)
    requires IsRun(p, run) && |p.file| < TWO63 && Last(run).rcv.routing && Last(run).rcv.gate.at.Free?
    requires Last(run).routed <= k && Plain(Last(run), k)
    ensures IsRun(p, full) && run <= full && OnlyRouted(Last(run), Last(full)) && Last(full).routed == k
    decreases k - Last(run).routed
  {
    hide IsRun, R.TakeControl, Plain;
    RunFacts(p, run);
    full := run;
    if Last(run).routed < k {
      var next := RouteOne(p, run, k);
      full := RouteUpTo(p, next, k);
    }
  }

  lemma RouteOne(p: Plan, run: seq<System>, k: nat) returns (full: seq<System>)
    requires IsRun(p, run) && |p.file| < TWO63 && Last(run).rcv.routing && Last(run).rcv.gate.at.Free?
    requires Last(run).routed < k && Plain(Last(run), k)
    ensures IsRun(p, full) && run <= full && full != [] && OnlyRouted(Last(run), Last(full))
    ensures Last(full).routed == Last(run).routed + 1 && Plain(Last(full), k)
  {
    hide IsRun, Inv, Routed, Step, Plain;
    RunFacts(p, run);
    TT.RunKeepsInv(p, run, |run| - 1);
    var s := Last(run);
    RouteIsStep(p, s, k);
    full := Push(p, run, Route(true), Routed(s));
  }

  lemma RouteIsStep(p: Plan, s: System, k: nat)
    requires Inv(p, s) && |p.file| < TWO63 && s.rcv.routing && s.rcv.gate.at.Free? && s.routed < k && Plain(s, k)
    ensures s.routed < |s.ctrl| && Routed(s).routed == s.routed + 1
    ensures Step(p, s, Route(true), Routed(s)) && OnlyRouted(s, Routed(s)) && Plain(Routed(s), k)
  {
    hide Inv, R.TakeControl;
    TakesPlain(p, s);
  }

  lemma TakesPlain(p: Plan, s: System)
    requires Inv(p, s) && |p.file| < TWO63 && s.rcv.routing && s.rcv.gate.at.Free?
    requires s.routed < |s.ctrl| && (s.ctrl[s.routed].Meta? || s.ctrl[s.routed].Offer?)
    ensures var d := R.TakeControl(s.rcv, s.ctrl[s.routed], true); d.routing && d.gate == s.rcv.gate
  {
    var f := s.ctrl[s.routed];
    assert HP.CtrlOk(Announced(p), s.snd, s.routed, f);
    assert RP.GateOk(Setup(p), s.rcv.out.meta, s.rcv.gate);
    if f.Offer? { HP.OfferIsFresh(Announced(p), s.snd, s.ctrl, s.rcv.negs, s.routed); }
    hide Inv, PeersOk, MetaOk, RP.GateOk, Resize;
    assert f.Meta? ==> s.rcv.out.meta.None? && s.rcv.gate.fileOpen;
  }

  /** The receiver's actions for a waiting fail call that finds the gate free. */
  lemma FailRuns(p: Plan, run: seq<System>, e: CoreError) returns (full: seq<System>)
    requires IsRun(p, run) && Last(run).rcv.gate.at.Free? && e in Last(run).rcv.callers.fails
    ensures IsRun(p, full) && run <= full && F.EndedWith(Last(full).rcv, e)
    ensures Last(full).ctrl == Last(run).ctrl
  {
    hide IsRun, Inv, R.Do, R.Can, F.EndedWith, RP.Inv, Setup;
    RunFacts(p, run);
    TT.RunKeepsInv(p, run, |run| - 1);
    ReceiverPart(p, Last(run));
    var s1, s2, s3, s4, s5 := F.FailSteps(Setup(p), Last(run).rcv, e);
    full := LocalOn(p, run, R.Call(R.EnterFail(e)), s1);
    full := LocalOn(p, full, R.Hold(R.Sweep), s2);
    full := LocalOn(p, full, R.Hold(R.Discard), s3);
    full := LocalOn(p, full, R.Hold(R.Remove), s4);
    full := LocalOn(p, full, R.Hold(R.Announce), s5);
  }

  lemma ReceiverPart(p: Plan, s: System)
    requires Inv(p, s)
    ensures RP.Inv(Setup(p), s.rcv)
  {
    hide RP.Inv, PP.Inv, PeersOk, MetaOk, DataOk;
  }

  lemma LocalOn(p: Plan, run: seq<System>, a: R.Action, r: R.Receiver) returns (full: seq<System>)
    requires IsRun(p, run) && |p.file| < TWO64 && !a.Control? && !a.Peer? && R.Can(Last(run).rcv, a) && r == R.Do(Setup(p), Last(run).rcv, a)
    ensures IsRun(p, full) && run <= full && full != [] && Last(full).rcv == r && Last(full).ctrl == Last(run).ctrl
  {
    hide IsRun, R.Do, R.Can, Step;
    RunFacts(p, run);
    var s' := Last(run).(rcv := r);
    LocalIsStep(p, Last(run), a, s');
    full := Push(p, run, Local(a), s');
  }

  lemma LocalIsStep(p: Plan, s: System, a: R.Action, s': System)
    requires |p.file| < TWO64 && !a.Control? && !a.Peer? && R.Can(s.rcv, a) && s' == s.(rcv := R.Do(Setup(p), s.rcv, a))
    ensures Step(p, s, Local(a), s')
  {
    hide R.Do, R.Can;
  }

  /** A control channel whose last frame is an ABORT, with nothing but METADATA and offers to take before. */
  lemma AbortTaken(p: Plan, run: seq<System>, reason: bytes) returns (full: seq<System>)
    requires IsRun(p, run) && |p.file| < TWO63 && Last(run).rcv.routing && Last(run).rcv.gate.at.Free?
    requires Last(run).ctrl != [] && Last(run).ctrl[|Last(run).ctrl| - 1] == Abort(reason)
    requires Last(run).routed < |Last(run).ctrl| && Plain(Last(run), |Last(run).ctrl| - 1)
    ensures IsRun(p, full) && run <= full && F.EndedWith(Last(full).rcv, Other(reason))
    ensures Last(full).ctrl == Last(run).ctrl
  {
    hide IsRun, F.EndedWith;
    RunFacts(p, run);
    full := RouteUpTo(p, run, |Last(run).ctrl| - 1);
    var s := Last(full);
    full := Push(p, full, Route(true), Routed(s));
    full := FailRuns(p, full, Other(reason));
  }

  /** What the receiver has not taken yet is plain as long as the sender neither stopped nor ended its pipeline. */
  lemma PlainSoFar(p: Plan, run: seq<System>)
    requires IsRun(p, run) && !Last(run).snd.stage.Stopped?
    requires !Last(run).pipe.main.Aborted? && !Last(run).pipe.main.Completed?
    ensures Plain(Last(run), |Last(run).ctrl|) && Last(run).routed <= |Last(run).ctrl|
  {
    var s := Last(run);
    RunKeepsClosing(p, run, |run| - 1);
    TT.RunKeepsInv(p, run, |run| - 1);
    hide IsRun, Inv;
    LogPart(p, s);
    NoClosingYet(s);
  }

  lemma NoClosingYet(s: System)
    requires ClosingOk(s) && s.routed <= |s.ctrl| && !s.snd.stage.Stopped?
    requires !s.pipe.main.Aborted? && !s.pipe.main.Completed?
    requires forall i :: 0 <= i < |s.ctrl| ==> s.ctrl[i].Meta? || s.ctrl[i].Offer? || s.ctrl[i].Complete? || s.ctrl[i].Abort?
    ensures Plain(s, |s.ctrl|)
  {
  }

  lemma LogPart(p: Plan, s: System)
    requires Inv(p, s)
    ensures s.routed <= |s.ctrl|
    ensures forall i :: 0 <= i < |s.ctrl| ==> s.ctrl[i].Meta? || s.ctrl[i].Offer? || s.ctrl[i].Complete? || s.ctrl[i].Abort?
  {
    hide RP.Inv, PP.Inv, MetaOk, DataOk, HP.ShapeOk, HP.NegsMatch, HP.FlowOk;
    forall i | 0 <= i < |s.ctrl| ensures s.ctrl[i].Meta? || s.ctrl[i].Offer? || s.ctrl[i].Complete? || s.ctrl[i].Abort? {
      assert HP.CtrlOk(Announced(p), s.snd, i, s.ctrl[i]);
    }
  }

  /**
   * A failed handshake can be told: while the receiver's control loop runs and nobody has decided the
   * transfer, its ABORT can go out with any reason, arrive after everything said before, and end the
   * receiver with that very reason and the file removed if it has a path.
   */
  lemma HandshakeAbortArrives(p: Plan, run: seq<System>, reason: bytes) returns (full: seq<System>)
    requires IsRun(p, run) && |p.file| < TWO63 && Last(run).snd.stage.Aborting?
    requires Last(run).rcv.routing && Last(run).rcv.gate.at.Free?
    ensures IsRun(p, full) && run <= full && F.EndedWith(Last(full).rcv, Other(reason))
    ensures Last(full).ctrl == Last(run).ctrl + [Abort(reason)]
  {
    hide IsRun, F.EndedWith;
    RunFacts(p, run);
    RunKeepsOrder(p, run, |run| - 1, |run| - 1);
    PlainSoFar(p, run);
    var s := Last(run);
    var s' := s.(snd := s.snd.(stage := H.Stopped), ctrl := s.ctrl + [Abort(reason)]);
    full := Push(p, run, Send(H.SendAbort(reason, true)), s');
    PlainStill(s, s', reason);
    full := AbortTaken(p, full, reason);
  }

  lemma PlainStill(s: System, s': System, reason: bytes)
    requires Plain(s, |s.ctrl|) && s'.ctrl == s.ctrl + [Abort(reason)] && s'.routed == s.routed
    ensures Plain(s', |s'.ctrl| - 1)
  {
  }

  /** So can a failed pipeline: a read error, or a worker that gave up, once the coordinating routine knows. */
  lemma PipelineAbortArrives(p: Plan, run: seq<System>, reason: bytes) returns (full: seq<System>)
    requires IsRun(p, run) && |p.file| < TWO63 && Last(run).snd.stage.Running?
    requires Last(run).pipe.main.AwaitProducer? && Last(run).pipe.prodErr.Some? && PT.Doomed(Last(run).pipe)
    requires Last(run).rcv.routing && Last(run).rcv.gate.at.Free?
    ensures IsRun(p, full) && run <= full && F.EndedWith(Last(full).rcv, Other(reason))
    ensures Last(full).ctrl == Last(run).ctrl + [Abort(reason)]
  {
    hide IsRun, F.EndedWith, Inv, PT.Doomed, P.AllOk, Plain, Step;
    RunFacts(p, run);
    PlainSoFar(p, run);
    TT.RunKeepsInv(p, run, |run| - 1);
    var s := Last(run);
    KnowsOfFailure(p, s);
    var s' := s.(pipe := s.pipe.(main := P.Aborted), ctrl := s.ctrl + [Abort(reason)]);
    PumpAborts(p, s, reason);
    full := Push(p, run, Pump(P.MainRead, Some(reason)), s');
    PlainStill(s, s', reason);
    full := AbortTaken(p, full, reason);
  }

  lemma PumpAborts(p: Plan, s: System, reason: bytes)
    requires |p.file| < TWO64 && s.snd.stage.Running? && s.pipe.main.AwaitProducer? && s.pipe.prodErr.Some?
    requires s.pipe.prodErr.value || !P.AllOk(s.pipe)
    ensures var s' := s.(pipe := s.pipe.(main := P.Aborted), ctrl := s.ctrl + [Abort(reason)]);
            Step(p, s, Pump(P.MainRead, Some(reason)), s')
  {
    hide P.AllOk;
  }

  lemma KnowsOfFailure(p: Plan, s: System)
    requires Inv(p, s) && s.pipe.main.AwaitProducer? && s.pipe.prodErr.Some? && PT.Doomed(s.pipe)
    ensures s.pipe.prodErr.value || !P.AllOk(s.pipe)
  {
    hide PP.Inv, RP.Inv, PeersOk, MetaOk, DataOk;
    PT.AwaitingKnows(PipeConfig(p), s.pipe);
  }
}
