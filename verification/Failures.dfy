/**
 * What fails a transfer at the multi-connection receiver: every fault is reported, can end the transfer
 * with exactly its error while nobody has decided it yet, and no transfer fails without one.
 */
module Failures {
  import opened Bytes
  import opened Frames
  import opened Coders
  import opened CoreSpec
  import opened MultiReceiver
  import opened ReceiverProofs
  import Shutdown

  // ---- Faults ----

  function If(c: bool, e: CoreError): Option<CoreError> { if c then Some(e) else None }

  /** What is wrong with METADATA, the first reason first. */
  function MetadataFault(s: Receiver, m: Metadata, truncateOk: bool): Option<CoreError> {
    if m.version != 1 then Some(BadVersion)
    else if m.codec != 0 && m.codec != 1 then Some(BadCodec)
    else if s.out.meta.Some? then Some(DuplicateMetadata)
    else If(m.fileSize >= 0x8000_0000_0000_0000 || !s.gate.fileOpen || !truncateOk, TruncateFailed)
  }

  function ControlFault(s: Receiver, f: Frame, truncateOk: bool): Option<CoreError> {
    match f
    case Meta(m) => MetadataFault(s, m, truncateOk)
    case Complete => If(s.out.meta.None?, CompleteBeforeMetadata)
    case Abort(reason) => Some(Other(reason))
    case _ => None
  }

  /** What is wrong with a frame that a data peer with or without a decoder receives. */
  function FrameFault(u: Setup, o: Output, decoder: bool, f: Frame): Option<CoreError> {
    if !f.Data? then Some(UnexpectedFrame)
    else
      var plain := if decoder then u.coder.Decode(f.payload) else Some(f.payload);
      if plain.None? || |plain.value| >= 0x1_0000_0000_0000_0000 then Some(UndecodableData)
      else if o.meta.None? then Some(DataBeforeMetadata)
      else If(f.offset + |plain.value| > o.meta.value.fileSize, OutOfBounds)
  }

  function PeerFault(u: Setup, s: Receiver, id: byte, a: DataAct): Option<CoreError>
    requires CanPeer(s, id, a)
  {
    var m, h := s.out.meta, s.handlers;
    match a
    case Install(ok) => If(m.Some? && m.value.codec == 1 && !ok, DecoderFailed)
    case Deliver(f) => FrameFault(u, s.out, h[id].decoder, f)
    case Write(w) => If(!s.gate.fileOpen || h[id].turn.offset >= 0x8000_0000_0000_0000 || w.Failed?, WriteFailed)
    case Closed => If(s.gate.doneCloses == 0 && (m.None? || s.out.bytesWritten < m.value.fileSize), ClosedEarly)
    case Breaks(reason) => if reason.Some? then Some(Other(reason.value)) else None
    case _ => None
  }

  function VerifyFault(s: Receiver, a: VerifyAct): Option<CoreError> {
    match a
    case Start => If(s.out.meta.None?, VerifyBeforeMetadata)
    case TimeOut => Some(TimedOut)
    case Compare => If(s.out.meta.Some? && s.out.bytesWritten > s.out.meta.value.fileSize, TooManyBytes)
    case _ => None
  }

  function CallFault(s: Receiver, a: CallAct): Option<CoreError> {
    match a
    case ControlClosed => If(s.gate.doneCloses == 0, ClosedEarly)
    case Verify(_, step) => VerifyFault(s, step)
    case _ => None
  }

  function HoldFault(u: Setup, s: Receiver, a: HoldAct): Option<CoreError> {
    match a
    case Sync(ok) => If(!ok, SyncFailed)
    case ReadBlock(ok) => If(!ok || |s.gate.hashed| >= |s.out.sink|, HashReadFailed)
    case Judge => If(s.out.meta.Some? && u.hash(s.gate.hashed) != s.out.meta.value.sha256, IntegrityFailed)
    case _ => None
  }

  /** What is wrong with a step, if anything: the error the transfer is to fail with. */
  function Fault(u: Setup, s: Receiver, e: Action): Option<CoreError>
    requires Can(s, e)
  {
    match e
    case Control(f, ok) => ControlFault(s, f, ok)
    case Negotiate(_, a) => If(a == Build(false) || a.AcceptFails? || a == SendAnswer(false), NegotiationFailed)
    case Peer(id, a) => PeerFault(u, s, id, a)
    case Call(a) => CallFault(s, a)
    case Hold(a) => HoldFault(u, s, a)
  }

  function AsBag(e: Option<CoreError>): multiset<CoreError> { if e.Some? then multiset{e.value} else multiset{} }

  /** The fail call that gets through the gate, or finds it closed for good. */
  function Served(e: Action): multiset<CoreError> {
    if e.Call? && (e.call.EnterFail? || e.call.SkipFail?) then multiset{e.call.error} else multiset{}
  }

  // ---- Every fault is reported ----

  /** Outside the gate a step at fault, and no other, adds a call of fail with exactly its fault. */
  lemma FaultIsReported(u: Setup, s: Receiver, e: Action)
    requires Can(s, e) && !e.Hold?
    ensures Do(u, s, e).callers.fails == s.callers.fails - Served(e) + AsBag(Fault(u, s, e))
  {
    hide TakeControl, DoNegotiate, CanNegotiate, DoPeer, CanPeer, DoCall, CanCall, ControlFault, PeerFault, CallFault;
    match e {
      case Control(f, ok) => ControlFaults(s, f, ok);
      case Negotiate(id, a) => NegotiatorFaults(u, s, id, a);
      case Peer(id, a) => PeerFaults(u, s, id, a);
      case Call(a) => CallFaults(s, a);
    }
  }

  lemma ControlFaults(s: Receiver, f: Frame, ok: bool)
    ensures TakeControl(s, f, ok).callers.fails == s.callers.fails + AsBag(ControlFault(s, f, ok))
  {
    hide MetadataStep, MetadataFault;
    if f.Meta? { MetadataFaults(s, f.meta, ok); }
  }

  lemma MetadataFaults(s: Receiver, m: Metadata, ok: bool)
    ensures MetadataStep(s.out, s.gate.fileOpen, m, ok).1 == MetadataFault(s, m, ok)
  {
    hide Resize;
  }

  lemma NegotiatorFaults(u: Setup, s: Receiver, id: byte, a: NegAct)
    requires id in s.negs && CanNegotiate(s.gate, s.negs[id], a)
    ensures DoNegotiate(s, id, a).callers.fails == s.callers.fails + AsBag(Fault(u, s, Negotiate(id, a)))
  {
    hide NegStep, CanNegotiate, ControlFault, PeerFault, CallFault;
  }

  lemma PeerFaults(u: Setup, s: Receiver, id: byte, a: DataAct)
    requires CanPeer(s, id, a)
    ensures DoPeer(u, s, id, a).callers.fails == s.callers.fails + AsBag(Fault(u, s, Peer(id, a)))
  {
    hide DataStep, CanPeer, FrameFault;
    if !a.Install? { DataFaults(u, s, id, a); }
  }

  lemma DataFaults(u: Setup, s: Receiver, id: byte, a: DataAct)
    requires CanPeer(s, id, a) && !a.Install?
    ensures id in s.handlers && CanTurn(s.handlers[id].turn, a)
    ensures DataStep(u, s.gate, s.out, s.handlers[id], a).2 == PeerFault(u, s, id, a)
  {
    hide PutAt, Examine, FrameFault;
    if a.Deliver? { ExamineFaults(u, s.out, s.handlers[id].decoder, a.frame); }
  }

  lemma ExamineFaults(u: Setup, o: Output, decoder: bool, f: Frame)
    ensures FrameFault(u, o, decoder, f)
         == if !f.Data? then Some(UnexpectedFrame)
            else var x := Examine(u, o, decoder, f.offset, f.payload); if x.Err? then Some(x.error) else None
  {
    if f.Data? && o.meta.Some? {
      var plain := if decoder then u.coder.Decode(f.payload) else Some(f.payload);
      if plain.Some? && |plain.value| < TWO64 { BoundsTestIsExact(f.offset, |plain.value|, o.meta.value.fileSize); }
    }
    hide InBounds;
  }

  lemma CallFaults(s: Receiver, a: CallAct)
    requires CanCall(s, a)
    ensures DoCall(s, a).callers.fails == s.callers.fails - Served(Call(a)) + AsBag(CallFault(s, a))
  {
    hide DoCall, CallFault, Served, AsBag, CanCall;
    match a {
      case ControlClosed => ControlClosedFaults(s);
      case Verify(k, step) => VerifyCallFaults(s, k, step);
      case _ => ServedCall(s, a);
    }
  }

  lemma ControlClosedFaults(s: Receiver)
    ensures DoCall(s, ControlClosed).callers.fails
         == s.callers.fails - Served(Call(ControlClosed)) + AsBag(CallFault(s, ControlClosed))
  {
  }

  lemma VerifyCallFaults(s: Receiver, k: nat, step: VerifyAct)
    requires CanCall(s, Verify(k, step))
    ensures DoCall(s, Verify(k, step)).callers.fails
         == s.callers.fails - Served(Call(Verify(k, step))) + AsBag(CallFault(s, Verify(k, step)))
  {
    hide DoVerify, VerifyFault, AsBag;
    VerifyFaults(s, k, step);
    assert s.callers.fails - multiset{} == s.callers.fails;
  }

  lemma ServedCall(s: Receiver, a: CallAct)
    requires CanCall(s, a) && !a.ControlClosed? && !a.Verify?
    ensures DoCall(s, a).callers.fails == s.callers.fails - Served(Call(a)) + AsBag(CallFault(s, a))
  {
    hide DoVerify, CanVerify;
    assert AsBag(CallFault(s, a)) == multiset{};
  }

  lemma VerifyFaults(s: Receiver, k: nat, a: VerifyAct)
    requires CanVerify(s, k, a)
    ensures DoVerify(s, k, a).callers.fails == s.callers.fails + AsBag(VerifyFault(s, a))
  {
    VerdictFaults(s, a);
    hide VerifierNext, VerifyFault;
  }

  lemma VerdictFaults(s: Receiver, a: VerifyAct)
    ensures VerifierNext(s, a).1 == VerifyFault(s, a)
  {
  }

  /** Inside the gate a fault is the result. */
  lemma HoldFaults(u: Setup, s: Receiver, a: HoldAct)
    requires CanHold(s.out, s.gate, a)
    ensures var d := DoHold(u, s, a);
            && d.callers.fails == s.callers.fails
            && d.gate.result == (if HoldFault(u, s, a).Some? then HoldFault(u, s, a) else s.gate.result)
  {
  }

  /** The sender is to blame for everything but the file system, the transport, the decoder, time and its own ABORT. */
  lemma BlamesExactly(e: CoreError)
    ensures BlamesSender(e) <==>
              !(e.TruncateFailed? || e.WriteFailed? || e.TimedOut? || e.SyncFailed? || e.HashReadFailed? || e.DecoderFailed?
                || e.NegotiationFailed? || e.ClosedEarly? || e.Other?)
  {
  }

  /** Every fault that blames the sender, and a control frame out of place, leaves its mark in the history. */
  lemma BlameIsKept(u: Setup, s: Receiver, e: Action)
    requires Can(s, e)
    ensures Do(u, s, e).protocolError <==>
              || s.protocolError || (!e.Hold? && Fault(u, s, e).Some? && BlamesSender(Fault(u, s, e).value))
              || (e.Control? && (if e.frame.Offer? then e.frame.id in s.negs
                                 else !e.frame.Meta? && !e.frame.Complete? && !e.frame.Abort?))
  {
    hide TakeControl, DoNegotiate, CanNegotiate, DoPeer, CanPeer, DoCall, CanCall, DoHold, CanHold,
      ControlFault, PeerFault, CallFault, HoldFault, BlamesSender;
    match e {
      case Control(f, ok) => ControlBlame(s, f, ok);
      case Negotiate(id, a) => NegotiatorBlame(s, id, a);
      case Peer(id, a) => PeerBlame(u, s, id, a);
      case Call(a) => CallBlame(s, a);
      case Hold(a) => HoldBlame(u, s, a);
    }
  }

  predicate Blamed(s: Receiver, fault: Option<CoreError>) { s.protocolError || (fault.Some? && BlamesSender(fault.value)) }

  lemma ControlBlame(s: Receiver, f: Frame, ok: bool)
    ensures TakeControl(s, f, ok).protocolError <==>
              Blamed(s, ControlFault(s, f, ok))
              || (if f.Offer? then f.id in s.negs else !f.Meta? && !f.Complete? && !f.Abort?)
  {
    hide MetadataStep, MetadataFault;
    if f.Meta? { MetadataFaults(s, f.meta, ok); }
  }

  lemma NegotiatorBlame(s: Receiver, id: byte, a: NegAct)
    requires id in s.negs && CanNegotiate(s.gate, s.negs[id], a)
    ensures DoNegotiate(s, id, a).protocolError == s.protocolError && !BlamesSender(NegotiationFailed)
  {
    hide NegStep, CanNegotiate;
  }

  lemma PeerBlame(u: Setup, s: Receiver, id: byte, a: DataAct)
    requires CanPeer(s, id, a)
    ensures DoPeer(u, s, id, a).protocolError <==> Blamed(s, PeerFault(u, s, id, a))
  {
    hide DataStep, CanPeer, FrameFault;
    if !a.Install? { DataFaults(u, s, id, a); }
  }

  lemma CallBlame(s: Receiver, a: CallAct)
    requires CanCall(s, a)
    ensures DoCall(s, a).protocolError <==> Blamed(s, CallFault(s, a))
  {
    hide DoVerify, CanVerify, VerifyFault;
    if a.Verify? { VerifyBlame(s, a.k, a.step); }
  }

  lemma VerifyBlame(s: Receiver, k: nat, a: VerifyAct)
    requires CanVerify(s, k, a)
    ensures DoVerify(s, k, a).protocolError <==> Blamed(s, VerifyFault(s, a))
  {
    VerdictFaults(s, a);
    hide VerifierNext, VerifyFault;
  }

  lemma HoldBlame(u: Setup, s: Receiver, a: HoldAct)
    requires CanHold(s.out, s.gate, a)
    ensures DoHold(u, s, a).protocolError == s.protocolError
  {
    hide HoldStep;
  }

  /** Connections close and end, and timers fire, whenever they like; a frame loop takes frames one at a time. */
  lemma WhenThingsHappen(s: Receiver, id: byte, k: nat)
    ensures CanCall(s, ControlClosed) && CanCall(s, ControlEnds)
    ensures CanPeer(s, id, Closed) <==> id in s.handlers
    ensures forall f :: CanPeer(s, id, Deliver(f)) <==> id in s.handlers && s.handlers[id].turn.Idle?
    ensures forall reason :: CanPeer(s, id, Breaks(reason)) <==> id in s.handlers && s.handlers[id].turn.Idle?
    ensures CanVerify(s, k, TimeOut) <==> k < |s.callers.verifiers| && s.callers.verifiers[k].Waiting?
    ensures CanVerify(s, k, Quit) <==> k < |s.callers.verifiers| && s.callers.verifiers[k].Waiting? && s.gate.doneCloses > 0
    ensures CanVerify(s, k, Pass) <==> k < |s.callers.verifiers| && s.callers.verifiers[k].Waiting? && s.out.allBytes
  {
  }

  /** What ends the control loop: a fault, a second offer for an id, a frame out of place, or the end of the channel. */
  predicate EndsLoop(s: Receiver, e: Action) {
    match e
    case Control(f, ok) =>
      ControlFault(s, f, ok).Some? || (if f.Offer? then f.id in s.negs else !f.Meta? && !f.Complete?)
    case Call(a) => a.ControlEnds?
    case _ => false
  }

  lemma LoopEnds(u: Setup, s: Receiver, e: Action)
    requires Can(s, e)
    ensures Do(u, s, e).routing <==> s.routing && !EndsLoop(s, e)
    ensures Do(u, s, e).completeSeen <==> s.completeSeen || (e.Control? && e.frame.Complete? && s.out.meta.Some?)
  {
    hide DoNegotiate, CanNegotiate, DoPeer, CanPeer, DoVerify, CanVerify, HoldStep, CanHold, MetadataStep, MetadataFault;
    match e {
      case Control(f, ok) => if f.Meta? { MetadataFaults(s, f.meta, ok); }
      case Negotiate(id, a) => NegotiateLeavesLoop(s, id, a);
      case Peer(id, a) => PeerLeavesLoop(u, s, id, a);
      case Call(a) => if a.Verify? { VerifyLeavesLoop(s, a.k, a.step); }
      case Hold(_) =>
    }
  }

  lemma NegotiateLeavesLoop(s: Receiver, id: byte, a: NegAct)
    requires id in s.negs && CanNegotiate(s.gate, s.negs[id], a)
    ensures DoNegotiate(s, id, a).routing == s.routing && DoNegotiate(s, id, a).completeSeen == s.completeSeen
  {
    hide NegStep, CanNegotiate;
  }

  lemma PeerLeavesLoop(u: Setup, s: Receiver, id: byte, a: DataAct)
    requires CanPeer(s, id, a)
    ensures DoPeer(u, s, id, a).routing == s.routing && DoPeer(u, s, id, a).completeSeen == s.completeSeen
  {
    hide DataStep, NeedsDecoder;
  }

  lemma VerifyLeavesLoop(s: Receiver, k: nat, a: VerifyAct)
    requires CanVerify(s, k, a)
    ensures DoVerify(s, k, a).routing == s.routing && DoVerify(s, k, a).completeSeen == s.completeSeen
  {
    hide VerifierNext;
  }

  // ---- A negotiation ----

  /** A negotiation up to and including its look at done and at the context. */
  function Negotiated(g: DoneGate, n: Neg, answer: bytes, cancelled: bool, sent: nat): Neg
    requires n.phase.Building?
  {
    var joined := NegStep(g, NegStep(g, n, Build(true), sent), Join, sent);
    NegStep(g, NegStep(g, joined, Accept(answer), sent), Check(cancelled), sent)
  }

  /** A negotiation goes on to answer exactly when neither done nor the context stops it. */
  lemma CheckDecides(g: DoneGate, n: Neg, answer: bytes, cancelled: bool, sent: nat)
    requires n.phase.Building?
    ensures var d := Negotiated(g, n, answer, cancelled, sent);
            && d.phase == (if cancelled || g.doneCloses > 0 then Bailing else Cleared(answer))
            && d.closes == n.closes && d.offer == n.offer && d.joinedAt == Now(g)
  {
  }

  /** One that is stopped leaves without a word, and its session is closed. */
  lemma BailingLeaves(s: Receiver, id: byte)
    requires id in s.negs && s.negs[id].phase.Bailing? && s.negs[id].closes <= 1
    ensures CanNegotiate(s.gate, s.negs[id], CloseOwn)
    ensures var d := DoNegotiate(s, id, CloseOwn);
            d == s.(negs := s.negs[id := s.negs[id].(phase := Left, closes := 1)])
  {
  }

  /** One that goes on sends its answer and leaves the session open, or calls fail. */
  lemma AnswerOutcome(s: Receiver, id: byte, answer: bytes, ok: bool)
    requires id in s.negs && s.negs[id].phase == Cleared(answer)
    ensures CanNegotiate(s.gate, s.negs[id], SendAnswer(ok))
    ensures var d := DoNegotiate(s, id, SendAnswer(ok));
            && id in d.negs && d.negs[id].closes == s.negs[id].closes
            && (d.negs[id].phase.Answered? <==> ok) && (d.negs[id].phase.Failing? <==> !ok)
            && d.answers == s.answers + (if ok then [Answer(id, answer)] else [])
            && d.callers.fails == s.callers.fails + (if ok then multiset{} else multiset{NegotiationFailed})
  {
  }

  /** An offer that is not accepted is a failure, too. */
  lemma RefusedOffer(s: Receiver, id: byte)
    requires id in s.negs && s.negs[id].phase.Joined?
    ensures CanNegotiate(s.gate, s.negs[id], AcceptFails)
    ensures var d := DoNegotiate(s, id, AcceptFails);
            && d.negs == s.negs[id := s.negs[id].(phase := Failing)] && d.answers == s.answers
            && d.callers.fails == s.callers.fails + multiset{NegotiationFailed}
  {
  }

  /** A negotiation that has failed waits until the transfer is over, and then closes its session if nobody has. */
  lemma FailedNegotiation(s: Receiver, id: byte)
    requires id in s.negs && s.negs[id].phase.Failing? && s.negs[id].closes <= 1
    ensures CanNegotiate(s.gate, s.negs[id], CloseOwn) <==> s.gate.at.Finished?
    ensures s.gate.at.Finished? ==>
              var d := DoNegotiate(s, id, CloseOwn); d == s.(negs := d.negs) && d.negs[id].closes == 1 && d.negs[id].phase.Left?
  {
  }

  // ---- Runs ----

  function Last(run: seq<Receiver>): Receiver
    requires run != []
  {
    run[|run| - 1]
  }

  /** The k-th step of a run is e. */
  ghost predicate StepIs(u: Setup, run: seq<Receiver>, k: nat, e: Action) {
    k + 1 < |run| && Can(run[k], e) && run[k + 1] == Do(u, run[k], e)
  }

  lemma SomeStep(u: Setup, run: seq<Receiver>, k: nat) returns (e: Action)
    requires IsRun(u, run) && k + 1 < |run|
    ensures StepIs(u, run, k, e)
  {
    hide Do, Can;
    assert Next(u, run[k], run[k + 1]);
    e :| Can(run[k], e) && run[k + 1] == Do(u, run[k], e);
  }

  /** A call of fail stays until it gets through the gate, or finds it closed for good. */
  lemma {:induction false} ReportsStay(u: Setup, run: seq<Receiver>, i: nat, j: nat, e: CoreError)
    requires IsRun(u, run) && i <= j < |run| && e in run[i].callers.fails && run[j].gate.at.Free?
    ensures e in run[j].callers.fails && run[i].gate.at.Free?
    decreases j
  {
    hide IsRun, Shutdown.Settled, StepIs;
    if i < j {
      var a := SomeStep(u, run, j - 1);
      Shutdown.RunSettles(u, run, j - 1, j);
      FreeBefore(run[j - 1], run[j]);
      ReportsStay(u, run, i, j - 1, e);
      StillThere(u, run, j - 1, a, e);
    }
  }

  lemma FreeBefore(s: Receiver, d: Receiver)
    requires Shutdown.Settled(s, d) && d.gate.at.Free?
    ensures s.gate.at.Free?
  {
  }

  lemma FaultsOf(u: Setup, s: Receiver, e: Action)
    requires Can(s, e)
    ensures Do(u, s, e).callers.fails
         == s.callers.fails - Served(e) + (if e.Hold? then multiset{} else AsBag(Fault(u, s, e)))
  {
    hide Can, Fault;
    if e.Hold? { HoldFrameCalls(u, s, e.hold); } else { FaultIsReported(u, s, e); }
  }

  lemma HoldFrameCalls(u: Setup, s: Receiver, a: HoldAct)
    requires Can(s, Hold(a))
    ensures Do(u, s, Hold(a)).callers == s.callers
  {
    hide HoldStep;
  }

  lemma StillThere(u: Setup, run: seq<Receiver>, k: nat, a: Action, e: CoreError)
    requires StepIs(u, run, k, a) && e in run[k].callers.fails && run[k + 1].gate.at.Free? && run[k].gate.at.Free?
    ensures e in run[k + 1].callers.fails
  {
    hide Can, Do, Fault, Served;
    FaultsOf(u, run[k], a);
    NobodyServed(u, run[k], a);
  }

  lemma NobodyServed(u: Setup, s: Receiver, a: Action)
    requires Can(s, a) && Do(u, s, a).gate.at.Free? && s.gate.at.Free?
    ensures Served(a) == multiset{}
  {
    hide DoNegotiate, DoPeer, CanPeer, CanNegotiate, TakeControl, DoHold, CanHold, DoVerify, CanVerify;
  }

  /** Every call of fail has a step at fault behind it. */
  lemma {:induction false} ReportHasCause(u: Setup, run: seq<Receiver>, t: nat, e: CoreError) returns (k: nat, a: Action)
    requires IsRun(u, run) && t < |run| && e in run[t].callers.fails
    ensures k < t && StepIs(u, run, k, a) && Fault(u, run[k], a) == Some(e)
    decreases t
  {
    hide IsRun, StepIs, Fault;
    if t == 0 {
      NoneAtFirst(u, run);
    } else {
      a := SomeStep(u, run, t - 1);
      CausedBy(u, run, t - 1, a, e);
      if e in run[t - 1].callers.fails {
        k, a := ReportHasCause(u, run, t - 1, e);
      } else {
        k := t - 1;
      }
    }
  }

  lemma NoneAtFirst(u: Setup, run: seq<Receiver>)
    requires IsRun(u, run)
    ensures run[0].callers.fails == multiset{} && run[0].gate.at.Free? && run[0].gate.result.None?
    ensures run[0].callers.verifiers == [] && !run[0].completeSeen
  {
  }

  lemma CausedBy(u: Setup, run: seq<Receiver>, k: nat, a: Action, e: CoreError)
    requires StepIs(u, run, k, a) && e in run[k + 1].callers.fails
    ensures Can(run[k], a) && (e in run[k].callers.fails || Fault(u, run[k], a) == Some(e))
  {
    hide Can, Do, Fault;
    FaultsOf(u, run[k], a);
  }

  /** No transfer fails for no reason: some step of the run was at fault, with exactly the error that is the result. */
  lemma {:induction false} ResultHasCause(u: Setup, run: seq<Receiver>, t: nat) returns (k: nat, a: Action)
    requires IsRun(u, run) && t < |run| && run[t].gate.result.Some?
    ensures k < t && StepIs(u, run, k, a) && Fault(u, run[k], a) == run[t].gate.result
    decreases t
  {
    hide IsRun, StepIs, Fault, Served;
    if t == 0 {
      NoneAtFirst(u, run);
    } else {
      a := SomeStep(u, run, t - 1);
      k := t - 1;
      var e := run[t].gate.result.value;
      ResultFrom(u, run, t - 1, a);
      if run[t - 1].gate.result == run[t].gate.result {
        k, a := ResultHasCause(u, run, t - 1);
      } else if e in run[t - 1].callers.fails {
        k, a := ReportHasCause(u, run, t - 1, e);
      }
    }
  }

  lemma ResultFrom(u: Setup, run: seq<Receiver>, k: nat, a: Action)
    requires StepIs(u, run, k, a) && run[k + 1].gate.result.Some?
    ensures Can(run[k], a)
    ensures var r := run[k + 1].gate.result;
            r == run[k].gate.result || r == Fault(u, run[k], a) || r.value in run[k].callers.fails
  {
    hide Can, Do, HoldFault;
    var s := run[k];
    match a {
      case Hold(h) => HoldResult(u, s, h);
      case _ => OutsideResult(u, s, a);
    }
  }

  lemma HoldResult(u: Setup, s: Receiver, a: HoldAct)
    requires Can(s, Hold(a))
    ensures var d := Do(u, s, Hold(a));
            d.gate.result == (if HoldFault(u, s, a).Some? then HoldFault(u, s, a) else s.gate.result)
  {
    hide CanHold, DoHold, HoldFault;
    HoldFaults(u, s, a);
  }

  lemma OutsideResult(u: Setup, s: Receiver, a: Action)
    requires Can(s, a) && !a.Hold?
    ensures var r := Do(u, s, a).gate.result;
            r == s.gate.result || (r.Some? && r.value in s.callers.fails)
  {
    hide TakeControl, DoNegotiate, CanNegotiate, DoPeer, CanPeer, DoVerify, CanVerify;
    match a {
      case Control(f, ok) => ControlFrame(s, f, ok);
      case Negotiate(id, n) => NegotiateFrame(s, id, n);
      case Peer(id, d) => PeerFrame(u, s, id, d);
      case Call(c) => if c.Verify? { VerifyGate(s, c.k, c.step); }
    }
  }

  lemma VerifyGate(s: Receiver, k: nat, a: VerifyAct)
    requires CanVerify(s, k, a)
    ensures DoVerify(s, k, a).gate.result == s.gate.result
  {
    hide VerifierNext;
  }

  // ---- A fault can end the transfer ----

  lemma Extends(u: Setup, run: seq<Receiver>, a: Action)
    requires IsRun(u, run) && Can(Last(run), a)
    ensures IsRun(u, run + [Do(u, Last(run), a)])
  {
    var more := run + [Do(u, Last(run), a)];
    hide Do, Can;
    forall k | 0 <= k < |more| - 1 ensures Next(u, more[k], more[k + 1]) {
      if k < |run| - 1 { assert Next(u, run[k], run[k + 1]); }
    }
  }

  /**
   * The transfer is over with this error: done is closed, the file is gone if it had a path, and the peers
   * that were in the map are closed, their decoders dropped.
   */
  ghost predicate EndedWith(s: Receiver, e: CoreError) {
    && s.gate.doneCloses == 1 && s.gate.cleanups == 1 && s.gate.result == Some(e) && !s.gate.fileOpen
    && (s.gate.removed <==> s.gate.hasPath)
    && (forall id :: id in s.negs && InMap(s.negs[id].phase) ==> s.negs[id].closes == 1)
    && (forall id :: id in s.handlers ==> !s.handlers[id].decoder)
  }

  /** fail, from the gate to the close of done. */
  lemma FailSteps(u: Setup, s: Receiver, e: CoreError)
    returns (s1: Receiver, s2: Receiver, s3: Receiver, s4: Receiver, s5: Receiver)
    requires Inv(u, s) && s.gate.at.Free? && e in s.callers.fails
    ensures Can(s, Call(EnterFail(e))) && s1 == Do(u, s, Call(EnterFail(e)))
    ensures Can(s1, Hold(Sweep)) && s2 == Do(u, s1, Hold(Sweep))
    ensures Can(s2, Hold(Discard)) && s3 == Do(u, s2, Hold(Discard))
    ensures Can(s3, Hold(Remove)) && s4 == Do(u, s3, Hold(Remove))
    ensures Can(s4, Hold(Announce)) && s5 == Do(u, s4, Hold(Announce))
    ensures EndedWith(s5, e) && s5.out == s.out && s5.gate.hasPath == s.gate.hasPath && s5.routing == s.routing
  {
    assert GateOk(u, s.out.meta, s.gate);
    hide Inv, InMap;
    s1 := Do(u, s, Call(EnterFail(e)));
    s2 := Do(u, s1, Hold(Sweep));
    SweepCloses(u, s, s1);
    s3 := Do(u, s2, Hold(Discard));
    s4 := Do(u, s3, Hold(Remove));
    s5 := Do(u, s4, Hold(Announce));
  }

  /** cleanup leaves everybody in the map closed, and nobody with a decoder. */
  lemma SweepCloses(u: Setup, s: Receiver, s1: Receiver)
    requires Inv(u, s) && s1.negs == s.negs && CanHold(s1.out, s1.gate, Sweep)
    ensures forall id :: id in DoHold(u, s1, Sweep).handlers ==> !DoHold(u, s1, Sweep).handlers[id].decoder
    ensures forall id :: id in DoHold(u, s1, Sweep).negs && InMap(DoHold(u, s1, Sweep).negs[id].phase) ==>
              DoHold(u, s1, Sweep).negs[id].closes == 1
  {
    hide GateOk, TurnsOk, AnswersOk, HandlersOk, SizeOk, InMap, HoldStep, CanHold;
    forall id | id in s.negs && InMap(s.negs[id].phase) ensures DoHold(u, s1, Sweep).negs[id].closes == 1 {
      assert NegOk(s.gate, s.negs[id]);
    }
  }

  /** A waiting call of fail can decide any transfer that nobody has decided yet. */
  lemma ReportCanEnd(u: Setup, run: seq<Receiver>, e: CoreError) returns (full: seq<Receiver>)
    requires IsRun(u, run) && Last(run).gate.at.Free? && e in Last(run).callers.fails
    ensures IsRun(u, full) && run < full && EndedWith(Last(full), e)
    ensures Last(full).out == Last(run).out && Last(full).gate.hasPath == Last(run).gate.hasPath
    ensures Last(full).routing == Last(run).routing
  {
    RunKeepsInv(u, run, |run| - 1);
    hide IsRun, Inv, EndedWith, Can, Do;
    var s1, s2, s3, s4, s5 := FailSteps(u, Last(run), e);
    Extends(u, run, Call(EnterFail(e)));
    Extends(u, run + [s1], Hold(Sweep));
    Extends(u, run + [s1] + [s2], Hold(Discard));
    Extends(u, run + [s1] + [s2] + [s3], Hold(Remove));
    Extends(u, run + [s1] + [s2] + [s3] + [s4], Hold(Announce));
    full := run + [s1] + [s2] + [s3] + [s4] + [s5];
  }

  /**
   * Every fault outside the gate can decide the transfer while nobody holds the gate: it has called fail
   * with its error, and the run can go on so that done closes with exactly that error and the file removed
   * if it has a path.
   */
  lemma FaultCanEnd(u: Setup, run: seq<Receiver>, a: Action) returns (full: seq<Receiver>)
    requires IsRun(u, run) && Can(Last(run), a) && !a.Hold? && Fault(u, Last(run), a).Some?
    requires Last(run).gate.at.Free?
    ensures var d, e := Do(u, Last(run), a), Fault(u, Last(run), a).value;
            && e in d.callers.fails && d.gate == Last(run).gate
            && IsRun(u, full) && run + [d] < full && EndedWith(Last(full), e)
  {
    assert run != [];
    hide IsRun, Do, Can, Fault, EndedWith, Served;
    FaultIsReported(u, Last(run), a);
    FaultLeavesGate(u, Last(run), a);
    Extends(u, run, a);
    full := ReportCanEnd(u, run + [Do(u, Last(run), a)], Fault(u, Last(run), a).value);
  }

  lemma FaultLeavesGate(u: Setup, s: Receiver, a: Action)
    requires Can(s, a) && !a.Hold? && Fault(u, s, a).Some?
    ensures Do(u, s, a).gate == s.gate && Served(a) == multiset{}
  {
    hide TakeControl, DoNegotiate, CanNegotiate, DoPeer, CanPeer, DoVerify, CanVerify, ControlFault, PeerFault;
    match a {
      case Control(f, ok) => ControlFrame(s, f, ok);
      case Negotiate(id, n) => NegotiateFrame(s, id, n);
      case Peer(id, d) => PeerFrame(u, s, id, d);
      case Call(c) => if c.Verify? { VerifyFaultGate(s, c.k, c.step); }
    }
  }

  lemma VerifyFaultGate(s: Receiver, k: nat, a: VerifyAct)
    requires CanVerify(s, k, a) && VerifyFault(s, a).Some?
    ensures DoVerify(s, k, a).gate == s.gate
  {
    hide VerifierNext;
  }

  // ---- No success without a verification ----

  /** Nobody will ever verify: the control loop is over and every verifier has returned. */
  ghost predicate Hopeless(s: Receiver) {
    !s.routing && forall k :: 0 <= k < |s.callers.verifiers| ==> s.callers.verifiers[k].Returned?
  }

  /** No verification has the gate, or has left it. */
  predicate Undecided(g: DoneGate) { g.at.Free? || g.result.Some? }

  lemma HopelessStays(u: Setup, s: Receiver, e: Action)
    requires Can(s, e) && Hopeless(s) && Undecided(s.gate)
    ensures Hopeless(Do(u, s, e)) && Undecided(Do(u, s, e).gate)
  {
    hide TakeControl, DoNegotiate, CanNegotiate, DoPeer, CanPeer, DoHold, CanHold, DoCall, CanCall, EndsLoop;
    LoopEnds(u, s, e);
    match e {
      case Control(_, _) =>
      case Negotiate(id, a) => NegotiateFrame(s, id, a);
      case Peer(id, a) => PeerFrame(u, s, id, a);
      case Call(a) => HopelessCalls(s, a);
      case Hold(a) => StaysUndecided(u, s, a);
    }
  }

  lemma HopelessCalls(s: Receiver, a: CallAct)
    requires CanCall(s, a) && Hopeless(s) && Undecided(s.gate)
    ensures DoCall(s, a).callers.verifiers == s.callers.verifiers && Undecided(DoCall(s, a).gate)
  {
    hide DoVerify;
  }

  /** Once nobody will verify any more, done never closes with nil. */
  lemma {:induction false} HopelessFails(u: Setup, run: seq<Receiver>, i: nat, j: nat)
    requires IsRun(u, run) && i <= j < |run| && Hopeless(run[i]) && Undecided(run[i].gate)
    ensures Hopeless(run[j]) && Undecided(run[j].gate)
    ensures run[j].gate.doneCloses == 1 ==> run[j].gate.result.Some? && (run[j].gate.removed <==> run[j].gate.hasPath)
    decreases j
  {
    hide IsRun, Hopeless;
    if i < j {
      HopelessFails(u, run, i, j - 1);
      var e := SomeStep(u, run, j - 1);
      hide Can, Do;
      HopelessStays(u, run[j - 1], e);
    }
    RunKeepsInv(u, run, j);
    if run[j].gate.doneCloses == 1 { Shutdown.KeptExactlyWhenNil(u, run, j); }
  }

  /** Before TRANSFER_COMPLETE nobody verifies. */
  lemma {:induction false} NoVerifierYet(u: Setup, run: seq<Receiver>, t: nat)
    requires IsRun(u, run) && t < |run| && !run[t].completeSeen
    ensures run[t].callers.verifiers == [] && Undecided(run[t].gate)
    decreases t
  {
    hide IsRun;
    if t == 0 {
      NoneAtFirst(u, run);
    } else {
      var e := SomeStep(u, run, t - 1);
      hide Can, Do;
      LoopEnds(u, run[t - 1], e);
      NoVerifierYet(u, run, t - 1);
      NoNewVerifier(u, run[t - 1], e);
    }
  }

  lemma NoNewVerifier(u: Setup, s: Receiver, e: Action)
    requires Can(s, e) && s.callers.verifiers == [] && Undecided(s.gate) && !Do(u, s, e).completeSeen
    ensures Do(u, s, e).callers.verifiers == [] && Undecided(Do(u, s, e).gate)
  {
    hide DoNegotiate, CanNegotiate, DoPeer, CanPeer, DoHold, CanHold, TakeControl, DoCall, CanCall;
    match e {
      case Control(f, ok) =>
        ControlFrame(s, f, ok);
        NewVerifier(s, f, ok);
        LoopEnds(u, s, e);
      case Negotiate(id, a) => NegotiateFrame(s, id, a);
      case Peer(id, a) => PeerFrame(u, s, id, a);
      case Call(a) => NoVerifierCalls(s, a);
      case Hold(a) => StaysUndecided(u, s, a);
    }
  }

  /** Nothing undoes TRANSFER_COMPLETE. */
  lemma SeenStays(u: Setup, s: Receiver, e: Action)
    requires Can(s, e) && !Do(u, s, e).completeSeen && Do(u, s, e).callers.verifiers == []
    ensures !s.completeSeen && s.callers.verifiers == []
  {
    hide DoNegotiate, CanNegotiate, DoPeer, CanPeer, DoHold, CanHold, TakeControl, DoCall, CanCall;
    LoopEnds(u, s, e);
    match e {
      case Control(f, ok) => NewVerifier(s, f, ok);
      case Negotiate(id, a) => NegotiateFrame(s, id, a);
      case Peer(id, a) => PeerFrame(u, s, id, a);
      case Call(a) => VerifiersStay(s, a);
      case Hold(a) => HoldFrameCalls(u, s, a);
    }
  }

  lemma VerifiersStay(s: Receiver, a: CallAct)
    requires CanCall(s, a)
    ensures |DoCall(s, a).callers.verifiers| == |s.callers.verifiers|
  {
    hide VerifierNext;
  }

  /** TRANSFER_COMPLETE starts a verification; no other frame does. */
  lemma NewVerifier(s: Receiver, f: Frame, ok: bool)
    ensures TakeControl(s, f, ok).callers.verifiers
         == s.callers.verifiers + if f.Complete? && s.out.meta.Some? then [Started] else []
  {
    hide MetadataStep, TakeMetadata, TakeOffer;
    if f.Meta? { MetadataVerifiers(s, f.meta, ok); }
    if f.Offer? { OfferVerifiers(s, f.id, f.sdp); }
  }

  lemma MetadataVerifiers(s: Receiver, m: Metadata, ok: bool)
    ensures TakeMetadata(s, m, ok).callers.verifiers == s.callers.verifiers
  {
    hide MetadataStep;
  }

  lemma OfferVerifiers(s: Receiver, id: byte, sdp: bytes)
    ensures TakeOffer(s, id, sdp).callers.verifiers == s.callers.verifiers
  {
  }

  lemma NoVerifierCalls(s: Receiver, a: CallAct)
    requires CanCall(s, a) && s.callers.verifiers == [] && Undecided(s.gate)
    ensures DoCall(s, a).callers.verifiers == [] && Undecided(DoCall(s, a).gate)
  {
    hide DoVerify;
  }

  lemma StaysUndecided(u: Setup, s: Receiver, a: HoldAct)
    requires CanHold(s.out, s.gate, a) && Undecided(s.gate)
    ensures DoHold(u, s, a).callers == s.callers && Undecided(DoHold(u, s, a).gate)
  {
    HoldFaults(u, s, a);
    hide HoldFault, HoldStep;
  }

  // ---- ABORT and the timer ----

  /**
   * An ABORT calls fail with the reason it carries and ends the control loop. While nobody holds the gate
   * that call may enter it, and the run can go on so that done closes with that reason and the file removed
   * if it has a path.
   */
  lemma AbortEnds(u: Setup, run: seq<Receiver>, reason: bytes, ok: bool) returns (full: seq<Receiver>)
    requires IsRun(u, run) && Last(run).routing && Last(run).gate.at.Free?
    ensures Can(Last(run), Control(Abort(reason), ok))
    ensures var d := Do(u, Last(run), Control(Abort(reason), ok));
            && d.callers.fails == Last(run).callers.fails + multiset{Other(reason)}
            && !d.routing && CanCall(d, EnterFail(Other(reason)))
            && IsRun(u, full) && run + [d] < full && EndedWith(Last(full), Other(reason))
  {
    assert run != [];
    hide IsRun, EndedWith;
    var a := Control(Abort(reason), ok);
    FaultIsReported(u, Last(run), a);
    LoopEnds(u, Last(run), a);
    full := FaultCanEnd(u, run, a);
  }

  /** If the call that an ABORT makes is the next step, its reason is the result for good. */
  lemma AbortDecides(u: Setup, run: seq<Receiver>, i: nat, j: nat, reason: bytes, ok: bool)
    requires IsRun(u, run) && i + 1 < j < |run| && StepIs(u, run, i, Control(Abort(reason), ok))
    requires StepIs(u, run, i + 1, Call(EnterFail(Other(reason))))
    ensures run[j].gate.result == Some(Other(reason))
    ensures run[j].gate.doneCloses == 1 ==> (run[j].gate.removed <==> run[j].gate.hasPath)
  {
    Shutdown.FirstFailureDecides(u, run, i + 1, j, Other(reason));
    if run[j].gate.doneCloses == 1 { Shutdown.KeptExactlyWhenNil(u, run, j); }
  }

  /** An ABORT before TRANSFER_COMPLETE is fatal: in whatever order things happen, no such transfer ever succeeds. */
  lemma AbortIsFatal(u: Setup, run: seq<Receiver>, i: nat, j: nat, reason: bytes, ok: bool)
    requires IsRun(u, run) && i < j < |run| && StepIs(u, run, i, Control(Abort(reason), ok)) && !run[i].completeSeen
    ensures run[j].gate.doneCloses == 1 ==> run[j].gate.result.Some? && (run[j].gate.removed <==> run[j].gate.hasPath)
  {
    NoVerifierYet(u, run, i);
    LoopEnds(u, run[i], Control(Abort(reason), ok));
    LoopEndHopeless(run[i], reason, ok);
    HopelessFails(u, run, i + 1, j);
  }

  lemma LoopEndHopeless(s: Receiver, reason: bytes, ok: bool)
    requires s.routing && s.callers.verifiers == [] && Undecided(s.gate)
    ensures var d := TakeControl(s, Abort(reason), ok); Hopeless(d) && Undecided(d.gate)
  {
  }

  /**
   * A verification whose timer fires calls fail and is over. While nobody holds the gate the run can go on
   * so that done closes with that error and the file removed if it has a path.
   */
  lemma TimeOutEnds(u: Setup, run: seq<Receiver>, k: nat) returns (full: seq<Receiver>)
    requires IsRun(u, run) && k < |Last(run).callers.verifiers| && Last(run).callers.verifiers[k].Waiting?
    requires Last(run).gate.at.Free?
    ensures Can(Last(run), Call(Verify(k, TimeOut)))
    ensures var d := Do(u, Last(run), Call(Verify(k, TimeOut)));
            && d.callers.fails == Last(run).callers.fails + multiset{TimedOut}
            && d.callers.verifiers == Last(run).callers.verifiers[k := Returned] && CanCall(d, EnterFail(TimedOut))
            && IsRun(u, full) && run + [d] < full && EndedWith(Last(full), TimedOut)
  {
    assert run != [];
    hide IsRun, EndedWith;
    var a := Call(Verify(k, TimeOut));
    FaultIsReported(u, Last(run), a);
    full := FaultCanEnd(u, run, a);
  }

  /** If that was the only verification and the control loop is over, the transfer never succeeds. */
  lemma TimeOutIsFatal(u: Setup, run: seq<Receiver>, i: nat, j: nat)
    requires IsRun(u, run) && i < j < |run| && StepIs(u, run, i, Call(Verify(0, TimeOut)))
    requires |run[i].callers.verifiers| == 1 && !run[i].routing && run[i].gate.at.Free?
    ensures run[j].gate.doneCloses == 1 ==> run[j].gate.result.Some? && (run[j].gate.removed <==> run[j].gate.hasPath)
  {
    hide IsRun;
    HopelessFails(u, run, i + 1, j);
  }
}
