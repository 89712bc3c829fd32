/**
 * The step system of the multi-connection receiver against the sequential router: every handler whose
 * actions nobody interrupts, the fail call it may make included, does to the core, the peer map and the
 * control loop exactly what the router's handler does.
 */
module Uninterrupted {
  import opened Bytes
  import opened Frames
  import opened Coders
  import opened CoreSpec
  import opened RouterSpec
  import R = MultiReceiver
  import RP = ReceiverProofs

  // ---- The step system's receiver as a router ----

  /** accepted is the core's history of accepted bytes, which the step system does not keep. */
  ghost function AsCore(o: R.Output, g: R.DoneGate, accepted: nat): Core {
    Core(o.meta, o.sink, g.fileOpen, g.hasPath, g.removed, o.bytesWritten, o.allBytes, g.doneCloses > 0, g.result,
         g.cleanups, o.sized, accepted)
  }

  function EntryOf(s: R.Receiver, id: byte): Option<Entry>
    requires id in s.negs
  {
    if R.InMap(s.negs[id].phase) then Some(Entry(s.negs[id].closes, id in s.handlers && s.handlers[id].decoder)) else None
  }

  /** Peers that have not joined are only reserved. */
  function TableOf(s: R.Receiver): Table { map id | id in s.negs :: EntryOf(s, id) }

  ghost function AsRouter(s: R.Receiver, accepted: nat): Router {
    Router(AsCore(s.out, s.gate, accepted), TableOf(s), s.completeSeen, |s.callers.verifiers|, s.routing)
  }

  ghost function AsSetup(u: R.Setup): Setup { Setup(u.coder, u.hash) }

  lemma SameTable(s: R.Receiver, d: R.Receiver)
    requires d.negs == s.negs && d.handlers == s.handlers
    ensures TableOf(d) == TableOf(s)
  {
  }

  /** One peer's negotiation changes one entry. */
  lemma TableUpdate(s: R.Receiver, d: R.Receiver, id: byte, x: R.Neg)
    requires d.negs == s.negs[id := x] && d.handlers == s.handlers
    ensures TableOf(d) == TableOf(s)[id := EntryOf(d, id)]
  {
    hide R.InMap;
    assert forall i :: i in s.negs && i != id ==> EntryOf(d, i) == EntryOf(s, i);
  }

  lemma Listed(s: R.Receiver, id: byte)
    ensures id in TableOf(s) <==> id in s.negs
    ensures id in s.negs ==> TableOf(s)[id] == EntryOf(s, id)
  {
  }

  // ---- fail ----

  /** Nobody holds the gate. */
  predicate Quiet(g: R.DoneGate) { g.at.Free? || g.at.Finished? }

  /** abortFile, close(done), and out of doneOnce. */
  function Abandon(u: R.Setup, o: R.Output, g: R.DoneGate): R.DoneGate
    requires g.at == R.Held(R.Discarding)
  {
    var g1 := R.HoldStep(u, o, g, R.Discard);
    var g2 := R.HoldStep(u, o, g1, R.Remove);
    var g3 := R.HoldStep(u, o, g2, R.Announce);
    R.HoldStep(u, o, g3, R.Release)
  }

  lemma AbandonIs(u: R.Setup, o: R.Output, g: R.DoneGate)
    requires g.at == R.Held(R.Discarding)
    ensures Abandon(u, o, g)
         == g.(fileOpen := false, removed := g.hasPath, doneCloses := g.doneCloses + 1, at := R.Finished)
  {
  }

  /** A waiting fail call from the gate on: it enters, sweeps, and does the rest, or finds that all is over. */
  function FailThrough(u: R.Setup, s: R.Receiver, e: CoreError): R.Receiver
    requires Quiet(s.gate) && e in s.callers.fails
  {
    if s.gate.at.Finished? then R.DoCall(s, R.SkipFail(e))
    else
      var s2 := R.DoHold(u, R.DoCall(s, R.EnterFail(e)), R.Sweep);
      s2.(gate := Abandon(u, s2.out, s2.gate))
  }

  /** The holder's actions after the sweep change the gate alone. */
  lemma HoldIsGate(u: R.Setup, s: R.Receiver, a: R.HoldAct)
    requires R.CanHold(s.out, s.gate, a) && !a.Sweep?
    ensures R.DoHold(u, s, a) == s.(gate := R.HoldStep(u, s.out, s.gate, a))
  {
  }

  /** The sweep is cleanup. */
  lemma SweepIsCleanup(u: R.Setup, s: R.Receiver)
    requires RP.Inv(u, s) && R.CanHold(s.out, s.gate, R.Sweep)
    ensures TableOf(R.DoHold(u, s, R.Sweep)) == SweepTable(TableOf(s))
  {
    hide R.HoldStep, RP.GateOk, RP.SizeOk, RP.TurnsOk, RP.AnswersOk, RP.HandlersOk;
    var d := R.DoHold(u, s, R.Sweep);
    forall id | id in s.negs ensures TableOf(d)[id] == SweepTable(TableOf(s))[id] {
      assert RP.NegOk(s.gate, s.negs[id]);
    }
  }

  /** When nobody interrupts it, a fail call is the router's, sweep of the peer map included. */
  lemma FailIsFail(u: R.Setup, s: R.Receiver, e: CoreError, n: nat)
    requires RP.Inv(u, s) && Quiet(s.gate) && e in s.callers.fails
    ensures AsRouter(FailThrough(u, s, e), n) == FailWith(AsRouter(s, n), e)
  {
    hide RP.Inv, TableOf, SweepTable, AsCore, FailThrough, Fail;
    if s.gate.at.Finished? {
      LateFail(u, s, e, n);
    } else {
      FailTable(u, s, e);
      FailCore(u, s, e, n);
    }
  }

  lemma LateFail(u: R.Setup, s: R.Receiver, e: CoreError, n: nat)
    requires RP.Inv(u, s) && s.gate.at.Finished? && e in s.callers.fails
    ensures AsRouter(FailThrough(u, s, e), n) == AsRouter(s, n) == FailWith(AsRouter(s, n), e)
  {
    assert RP.GateOk(u, s.out.meta, s.gate);
    hide RP.Inv, RP.GateOk, SweepTable, TableOf;
    SameTable(s, FailThrough(u, s, e));
  }

  lemma FailTable(u: R.Setup, s: R.Receiver, e: CoreError)
    requires RP.Inv(u, s) && s.gate.at.Free? && e in s.callers.fails
    ensures TableOf(FailThrough(u, s, e)) == SweepTable(TableOf(s))
    ensures FailThrough(u, s, e).completeSeen == s.completeSeen && FailThrough(u, s, e).routing == s.routing
    ensures FailThrough(u, s, e).callers.verifiers == s.callers.verifiers
  {
    hide RP.Inv, TableOf, SweepTable, Abandon, R.InMap;
    var s1 := R.DoCall(s, R.EnterFail(e));
    RP.CallKeeps(u, s, R.EnterFail(e));
    SameTable(s, s1);
    SweepIsCleanup(u, s1);
    SameTable(R.DoHold(u, s1, R.Sweep), FailThrough(u, s, e));
  }

  lemma FailCore(u: R.Setup, s: R.Receiver, e: CoreError, n: nat)
    requires RP.Inv(u, s) && s.gate.at.Free? && e in s.callers.fails
    ensures var d := FailThrough(u, s, e); AsCore(d.out, d.gate, n) == Fail(AsCore(s.out, s.gate, n), e)
    ensures !AsCore(s.out, s.gate, n).done
  {
    assert RP.GateOk(u, s.out.meta, s.gate);
    hide RP.Inv, RP.GateOk, Abandon, R.InMap;
    var s1 := R.DoCall(s, R.EnterFail(e));
    AbandonIs(u, s.out, R.HoldStep(u, s.out, s1.gate, R.Sweep));
  }

  // ---- Handlers that are one action, and the fail call they may make ----

  /** t has one fail call more than s, or none. */
  predicate Calls(s: R.Receiver, t: R.Receiver, err: Option<CoreError>) {
    t.callers.fails == s.callers.fails + if err.Some? then multiset{err.value} else multiset{}
  }

  /** What is left when the fail call has run, too. */
  function Settle(u: R.Setup, t: R.Receiver, err: Option<CoreError>): R.Receiver
    requires Quiet(t.gate) && (err.Some? ==> err.value in t.callers.fails)
  {
    if err.None? then t else FailThrough(u, t, err.value)
  }

  /** From s the handler goes to t, calls fail or not, and is then what the router's handler is. */
  ghost predicate Refines(u: R.Setup, s: R.Receiver, t: R.Receiver, err: Option<CoreError>, d: Router, n: nat) {
    Quiet(t.gate) && Calls(s, t, err) && AsRouter(Settle(u, t, err), n) == d
  }

  /** It suffices that the router's handler is what was done so far, and the failure. */
  lemma RefinesBy(u: R.Setup, s: R.Receiver, t: R.Receiver, err: Option<CoreError>, d: Router, n: nat)
    requires RP.Inv(u, t) && Quiet(t.gate) && Calls(s, t, err)
    requires d == if err.Some? then FailWith(AsRouter(t, n), err.value) else AsRouter(t, n)
    ensures Refines(u, s, t, err, d, n)
  {
    hide RP.Inv, AsRouter, FailWith, FailThrough;
    if err.Some? { FailIsFail(u, t, err.value, n); }
  }

  /** A failure reported to the router's core is fail. */
  lemma ToCoreIsFail(u: Setup, r: Router, e: CoreError)
    ensures ToCore(u, r, OnFailure(e)) == FailWith(r, e)
  {
  }

  /** The call of the router that action e is. */
  function CallOf(u: R.Setup, s: R.Receiver, e: R.Action): Option<Call>
    requires R.Can(s, e)
  {
    match e
    case Control(f, ok) => Some(Call.Control(f, ok))
    case Negotiate(id, a) =>
      (match a
       case Join => Some(Publish(id))
       case CloseOwn => Some(CloseOwn(id))
       case Build(ok) => if ok then None else Some(Failure(NegotiationFailed))
       case AcceptFails => Some(Failure(NegotiationFailed))
       case SendAnswer(ok) => if ok then None else Some(Failure(NegotiationFailed))
       case _ => None)
    case Peer(id, a) =>
      (match a
       case Install(ok) => Some(Call.Install(id, ok))
       case Deliver(f) =>
         if f.Data? && R.Examine(u, s.out, s.handlers[id].decoder, f.offset, f.payload).Ok? then None
         else Some(PeerFrame(id, f, Written))
       case Closed => Some(PeerCloses(id))
       case Breaks(reason) => if reason.Some? then Some(Failure(Other(reason.value))) else None
       case _ => None)
    case Call(c) =>
      (match c
       case ControlClosed => Some(EarlyClose)
       case ControlEnds => Some(Call.ControlEnds)
       case _ => None)
    case Hold(_) => None
  }

  /** Every handler that is one action, with the fail call that follows it if there is one, is the router's. */
  lemma OneAction(u: R.Setup, s: R.Receiver, e: R.Action, n: nat) returns (err: Option<CoreError>)
    requires RP.Inv(u, s) && R.Can(s, e) && Quiet(s.gate) && CallOf(u, s, e).Some?
    ensures Refines(u, s, R.Do(u, s, e), err, Apply(AsSetup(u), AsRouter(s, n), CallOf(u, s, e).value), n)
  {
    hide RP.Inv, AsRouter, Apply, Refines, R.TakeControl, R.DoNegotiate, R.CanNegotiate, R.DoPeer, R.CanPeer, R.DoCall;
    RP.StepKeepsInv(u, s, e);
    match e {
      case Control(f, ok) => err := ControlAction(u, s, f, ok, n);
      case Negotiate(id, a) => err := NegotiatorAction(u, s, id, a, n);
      case Peer(id, a) => err := PeerAction(u, s, id, a, n);
      case Call(a) => err := WatcherAction(u, s, a, n);
    }
  }

  // ---- The control loop ----

  lemma ControlAction(u: R.Setup, s: R.Receiver, f: Frame, ok: bool, n: nat) returns (err: Option<CoreError>)
    requires RP.Inv(u, s) && s.routing && Quiet(s.gate) && RP.Inv(u, R.TakeControl(s, f, ok))
    ensures Refines(u, s, R.TakeControl(s, f, ok), err, Apply(AsSetup(u), AsRouter(s, n), Call.Control(f, ok)), n)
  {
    hide RP.Inv, AsCore, TableOf, Refines, R.MetadataStep, ToCore, FailWith, HandleMetadata, R.TakeMetadata, R.TakeOffer, R.TakeComplete;
    var t := R.TakeControl(s, f, ok);
    var d := Apply(AsSetup(u), AsRouter(s, n), Call.Control(f, ok));
    RP.ControlFrame(s, f, ok);
    match f {
      case Meta(m) => err := MetadataAction(u, s, m, ok, n);
      case Offer(id, sdp) =>
        err := None;
        OfferAction(s, id, sdp, n);
      case Complete => err := CompleteAction(u, s, n);
      case Abort(reason) =>
        err := Some(Other(reason));
        AbortAction(u, s, reason, n);
      case _ =>
        err := None;
        SameTable(s, t);
    }
    RefinesBy(u, s, t, err, d, n);
  }

  lemma CompleteAction(u: R.Setup, s: R.Receiver, n: nat) returns (err: Option<CoreError>)
    requires s.routing
    ensures var t := R.TakeComplete(s);
            Calls(s, t, err)
            && TakeFrame(AsSetup(u), AsRouter(s, n), Complete, true)
                 == (if err.Some? then FailWith(AsRouter(t, n), err.value) else AsRouter(t, n))
  {
    hide TableOf, SweepTable, Fail, ToCore;
    SameTable(s, R.TakeComplete(s));
    ToCoreIsFail(AsSetup(u), AsRouter(s, n), CompleteBeforeMetadata);
    err := if s.out.meta.None? then Some(CompleteBeforeMetadata) else None;
  }

  lemma AbortAction(u: R.Setup, s: R.Receiver, reason: bytes, n: nat)
    requires s.routing
    ensures var t := R.TakeControl(s, Abort(reason), true);
            Calls(s, t, Some(Other(reason))) && t.gate == s.gate
            && TakeFrame(AsSetup(u), AsRouter(s, n), Abort(reason), true) == FailWith(AsRouter(t, n), Other(reason))
  {
    hide TableOf, SweepTable, Fail, ToCore;
    SameTable(s, R.TakeControl(s, Abort(reason), true));
    ToCoreIsFail(AsSetup(u), AsRouter(s, n), Other(reason));
  }

  lemma OfferAction(s: R.Receiver, id: byte, sdp: bytes, n: nat)
    ensures var d := R.TakeOffer(s, id, sdp);
            && Calls(s, d, None) && (id in TableOf(s) <==> id in s.negs)
            && AsRouter(d, n) == if id in s.negs then AsRouter(s, n).(reading := false)
                                 else AsRouter(s, n).(table := TableOf(s)[id := None])
  {
    hide TableOf;
    var d := R.TakeOffer(s, id, sdp);
    if id in s.negs {
      SameTable(s, d);
    } else {
      TableUpdate(s, d, id, d.negs[id]);
    }
    Listed(s, id);
  }

  lemma MetadataAction(u: R.Setup, s: R.Receiver, m: Metadata, ok: bool, n: nat) returns (err: Option<CoreError>)
    requires s.routing
    ensures var t := R.TakeMetadata(s, m, ok);
            Calls(s, t, err)
            && TakeFrame(AsSetup(u), AsRouter(s, n), Meta(m), ok)
                 == (if err.Some? then FailWith(AsRouter(t, n), err.value) else AsRouter(t, n))
  {
    hide R.MetadataStep, HandleMetadata, TableOf, SweepTable, ToCore, FailWith;
    MetadataIsHandleMetadata(s.out, s.gate, m, ok, n);
    SameTable(s, R.TakeMetadata(s, m, ok));
    err := R.MetadataStep(s.out, s.gate.fileOpen, m, ok).1;
    MetadataToCore(AsSetup(u), AsRouter(s, n), m, ok);
    if err.Some? { OtherLoop(AsRouter(s, n).(core := HandleMetadata(AsCore(s.out, s.gate, n), m, ok).0), err.value); }
  }

  lemma OtherLoop(r: Router, e: CoreError)
    ensures FailWith(r, e).(reading := false) == FailWith(r.(reading := false), e)
  {
    hide SweepTable, Fail;
  }

  lemma MetadataToCore(u: Setup, r: Router, m: Metadata, ok: bool)
    ensures var (c, err) := HandleMetadata(r.core, m, ok);
            ToCore(u, r, OnMetadata(m, ok)) == if err.Some? then FailWith(r.(core := c), err.value) else r.(core := c)
  {
    hide HandleMetadata, SweepTable;
    MetadataKeepsDone(r.core, m, ok);
  }

  lemma MetadataKeepsDone(c: Core, m: Metadata, ok: bool)
    ensures HandleMetadata(c, m, ok).0.done == c.done && HandleMetadata(c, m, ok).0.cleanups == c.cleanups
  {
  }

  /** handleMetadata of the step system is the core's, for every METADATA and every state. */
  lemma MetadataIsHandleMetadata(o: R.Output, g: R.DoneGate, m: Metadata, ok: bool, n: nat)
    ensures var (o', err) := R.MetadataStep(o, g.fileOpen, m, ok);
            HandleMetadata(AsCore(o, g, n), m, ok) == (AsCore(o', g, n), err)
  {
  }

  // ---- Negotiators ----

  lemma NegotiatorAction(u: R.Setup, s: R.Receiver, id: byte, a: R.NegAct, n: nat) returns (err: Option<CoreError>)
    requires RP.Inv(u, s) && id in s.negs && R.CanNegotiate(s.gate, s.negs[id], a) && Quiet(s.gate)
    requires CallOf(u, s, R.Negotiate(id, a)).Some? && RP.Inv(u, R.DoNegotiate(s, id, a))
    ensures Refines(u, s, R.DoNegotiate(s, id, a), err,
                    Apply(AsSetup(u), AsRouter(s, n), CallOf(u, s, R.Negotiate(id, a)).value), n)
  {
    hide RP.Inv, ToCore, AsCore, TableOf, R.NegStep, R.DoNegotiate, Refines, FailWith;
    var t, call := R.DoNegotiate(s, id, a), CallOf(u, s, R.Negotiate(id, a)).value;
    RP.NegotiateFrame(s, id, a);
    NegotiatorFacts(u, s, id, a);
    NegotiatorTable(s, id, a);
    err := if call.Failure? then Some(NegotiationFailed) else None;
    NegotiatorCalls(u, s, id, a, n);
    ToCoreIsFail(AsSetup(u), AsRouter(s, n), NegotiationFailed);
    RefinesBy(u, s, t, err, Apply(AsSetup(u), AsRouter(s, n), call), n);
  }

  lemma NegotiatorFacts(u: R.Setup, s: R.Receiver, id: byte, a: R.NegAct)
    requires RP.Inv(u, s) && id in s.negs && R.CanNegotiate(s.gate, s.negs[id], a)
    ensures a.Join? ==> s.negs[id].closes == 0 && id !in s.handlers
  {
    hide RP.GateOk, RP.SizeOk, RP.TurnsOk, RP.AnswersOk;
    assert RP.NegOk(s.gate, s.negs[id]) && (id in s.handlers ==> R.InMap(s.negs[id].phase));
  }

  lemma NegotiatorCalls(u: R.Setup, s: R.Receiver, id: byte, a: R.NegAct, n: nat)
    requires id in s.negs && R.CanNegotiate(s.gate, s.negs[id], a) && CallOf(u, s, R.Negotiate(id, a)).Some?
    ensures var d := R.DoNegotiate(s, id, a);
            && d.out == s.out && d.gate == s.gate && d.completeSeen == s.completeSeen
            && Calls(s, d, if CallOf(u, s, R.Negotiate(id, a)).value.Failure? then Some(NegotiationFailed) else None)
  {
    hide R.NegStep, R.CanNegotiate;
  }

  lemma NegotiatorTable(s: R.Receiver, id: byte, a: R.NegAct)
    requires id in s.negs && R.CanNegotiate(s.gate, s.negs[id], a)
    requires a.Join? ==> s.negs[id].closes == 0 && id !in s.handlers
    ensures var t, t' := TableOf(s), TableOf(R.DoNegotiate(s, id, a));
            && id in t
            && (a.Join? ==> t[id].None? && t' == t[id := Some(Entry(0, false))])
            && (a.CloseOwn? ==> t[id].Some? && t' == t[id := Some(Closed(t[id].value))])
            && (!a.Join? && !a.CloseOwn? ==> t' == t)
  {
    hide R.DoNegotiate, TableOf, R.NegStep;
    RP.NegotiateFrame(s, id, a);
    var d, x := R.DoNegotiate(s, id, a), R.NegStep(s.gate, s.negs[id], a, |s.answers|);
    TableUpdate(s, d, id, x);
    Listed(s, id);
    NegIs(s.gate, s.negs[id], a, |s.answers|);
  }

  lemma NegIs(g: R.DoneGate, x: R.Neg, a: R.NegAct, sent: nat)
    requires R.CanNegotiate(g, x, a)
    ensures var d := R.NegStep(g, x, a, sent);
            && (a.Join? ==> R.InMap(d.phase) && !R.InMap(x.phase) && d.closes == x.closes)
            && (a.CloseOwn? ==> R.InMap(d.phase) && R.InMap(x.phase) && d.closes == if x.closes == 0 then 1 else x.closes)
            && (!a.Join? && !a.CloseOwn? ==> R.InMap(d.phase) == R.InMap(x.phase) && d.closes == x.closes)
  {
  }

  // ---- Data peers ----

  lemma PeerAction(u: R.Setup, s: R.Receiver, id: byte, a: R.DataAct, n: nat) returns (err: Option<CoreError>)
    requires RP.Inv(u, s) && R.CanPeer(s, id, a) && Quiet(s.gate)
    requires CallOf(u, s, R.Peer(id, a)).Some? && RP.Inv(u, R.DoPeer(u, s, id, a))
    ensures Refines(u, s, R.DoPeer(u, s, id, a), err,
                    Apply(AsSetup(u), AsRouter(s, n), CallOf(u, s, R.Peer(id, a)).value), n)
  {
    hide RP.Inv, ToCore, AsCore, TableOf, R.DoPeer, Refines, FailWith, R.Examine, Apply, AsRouter;
    PeerInMap(u, s, id, a);
    match a {
      case Install(ok) => err := InstallAction(u, s, id, ok, n);
      case Deliver(f) => err := RefuseAction(u, s, id, f, n);
      case Closed => err := ClosedAction(u, s, id, n);
      case Breaks(reason) =>
        err := Some(Other(reason.value));
        BreakAction(u, s, id, reason.value, n);
    }
    RP.PeerFrame(u, s, id, a);
    RefinesBy(u, s, R.DoPeer(u, s, id, a), err, Apply(AsSetup(u), AsRouter(s, n), CallOf(u, s, R.Peer(id, a)).value), n);
  }

  lemma PeerInMap(u: R.Setup, s: R.Receiver, id: byte, a: R.DataAct)
    requires RP.Inv(u, s) && R.CanPeer(s, id, a)
    ensures id in s.negs && R.InMap(s.negs[id].phase)
  {
    hide RP.GateOk, RP.SizeOk, RP.TurnsOk, RP.AnswersOk, RP.NegsOk;
  }

  lemma InstallAction(u: R.Setup, s: R.Receiver, id: byte, ok: bool, n: nat) returns (err: Option<CoreError>)
    requires R.CanPeer(s, id, R.Install(ok))
    ensures var t := R.DoPeer(u, s, id, R.Install(ok));
            Calls(s, t, err)
            && Apply(AsSetup(u), AsRouter(s, n), Call.Install(id, ok))
                 == (if err.Some? then FailWith(AsRouter(t, n), err.value) else AsRouter(t, n))
  {
    hide ToCore, FailWith, TableOf;
    var t := R.DoPeer(u, s, id, R.Install(ok));
    Listed(s, id);
    InstallTable(u, s, id, ok);
    err := if R.NeedsDecoder(s.out) && !ok then Some(DecoderFailed) else None;
    ToCoreIsFail(AsSetup(u), AsRouter(s, n), DecoderFailed);
  }

  lemma InstallTable(u: R.Setup, s: R.Receiver, id: byte, ok: bool)
    requires R.CanPeer(s, id, R.Install(ok))
    ensures var t := TableOf(R.DoPeer(u, s, id, R.Install(ok)));
            if R.NeedsDecoder(s.out) && !ok then t == TableOf(s)
            else t == TableOf(s)[id := Some(Entry(s.negs[id].closes, R.NeedsDecoder(s.out)))]
  {
    hide R.NeedsDecoder, TableOf, R.InMap;
    var t := R.DoPeer(u, s, id, R.Install(ok));
    if R.NeedsDecoder(s.out) && !ok {
      SameTable(s, t);
    } else {
      HandlerTable(s, t, id, R.Handler(R.NeedsDecoder(s.out), R.Idle));
    }
  }

  /** A new handler's decoder shows in one entry. */
  lemma HandlerTable(s: R.Receiver, t: R.Receiver, id: byte, h: R.Handler)
    requires id in s.negs && R.InMap(s.negs[id].phase) && t.negs == s.negs && t.handlers == s.handlers[id := h]
    ensures TableOf(t) == TableOf(s)[id := Some(Entry(s.negs[id].closes, h.decoder))]
  {
    hide R.InMap;
    assert forall i :: i in s.negs && i != id ==> EntryOf(t, i) == EntryOf(s, i);
  }

  /** An action of a frame loop leaves its decoder, and so the table, alone. */
  lemma TurnTable(s: R.Receiver, t: R.Receiver, id: byte)
    requires id in s.handlers && t.negs == s.negs
    requires id in t.handlers && t.handlers == s.handlers[id := s.handlers[id].(turn := t.handlers[id].turn)]
    ensures TableOf(t) == TableOf(s)
  {
    hide R.InMap;
    assert forall i :: i in s.negs ==> EntryOf(t, i) == EntryOf(s, i);
  }

  /** What an action that only reports leaves as it is. */
  lemma ReportsOnly(u: R.Setup, s: R.Receiver, id: byte, a: R.DataAct, n: nat)
    requires R.CanPeer(s, id, a) && !a.Install?
    requires R.DataStep(u, s.gate, s.out, s.handlers[id], a).1 == s.out
    ensures var t, err := R.DoPeer(u, s, id, a), R.DataStep(u, s.gate, s.out, s.handlers[id], a).2;
            Calls(s, t, err) && AsRouter(t, n) == AsRouter(s, n)
  {
    hide R.DataStep, TableOf, AsCore;
    var t := R.DoPeer(u, s, id, a);
    assert t.negs == s.negs && t.out == s.out && t.gate == s.gate;
    TurnTable(s, t, id);
  }

  lemma BreakAction(u: R.Setup, s: R.Receiver, id: byte, reason: bytes, n: nat)
    requires R.CanPeer(s, id, R.Breaks(Some(reason)))
    ensures var t := R.DoPeer(u, s, id, R.Breaks(Some(reason)));
            Calls(s, t, Some(Other(reason)))
            && Apply(AsSetup(u), AsRouter(s, n), Failure(Other(reason))) == FailWith(AsRouter(t, n), Other(reason))
  {
    hide ToCore, FailWith, AsRouter;
    ReportsOnly(u, s, id, R.Breaks(Some(reason)), n);
    ToCoreIsFail(AsSetup(u), AsRouter(s, n), Other(reason));
  }

  lemma ClosedAction(u: R.Setup, s: R.Receiver, id: byte, n: nat) returns (err: Option<CoreError>)
    requires R.CanPeer(s, id, R.Closed) && id in s.negs && R.InMap(s.negs[id].phase)
    ensures var t := R.DoPeer(u, s, id, R.Closed);
            Calls(s, t, err)
            && Apply(AsSetup(u), AsRouter(s, n), PeerCloses(id))
                 == (if err.Some? then FailWith(AsRouter(t, n), err.value) else AsRouter(t, n))
  {
    hide ToCore, FailWith, TableOf, R.DoPeer;
    Listed(s, id);
    ReportsOnly(u, s, id, R.Closed, n);
    err := R.DataStep(u, s.gate, s.out, s.handlers[id], R.Closed).2;
    ToCoreIsFail(AsSetup(u), AsRouter(s, n), ClosedEarly);
  }

  /** A frame that is not DATA, or whose payload does not decompress or leaves the file, is refused. */
  lemma RefuseAction(u: R.Setup, s: R.Receiver, id: byte, f: Frame, n: nat) returns (err: Option<CoreError>)
    requires R.CanPeer(s, id, R.Deliver(f)) && id in s.negs && R.InMap(s.negs[id].phase)
    requires f.Data? ==> R.Examine(u, s.out, s.handlers[id].decoder, f.offset, f.payload).Err?
    ensures var t := R.DoPeer(u, s, id, R.Deliver(f));
            Calls(s, t, err)
            && Apply(AsSetup(u), AsRouter(s, n), PeerFrame(id, f, Written))
                 == (if err.Some? then FailWith(AsRouter(t, n), err.value) else AsRouter(t, n))
  {
    hide ToCore, FailWith, TableOf, R.DoPeer, R.Examine, TakePeerFrame;
    Listed(s, id);
    ReportsOnly(u, s, id, R.Deliver(f), n);
    err := R.DataStep(u, s.gate, s.out, s.handlers[id], R.Deliver(f)).2;
    RefusedFrame(u, s, id, f, n);
  }

  lemma RefusedFrame(u: R.Setup, s: R.Receiver, id: byte, f: Frame, n: nat)
    requires R.CanPeer(s, id, R.Deliver(f)) && id in s.negs && R.InMap(s.negs[id].phase) && Has(TableOf(s), id)
    requires f.Data? ==> R.Examine(u, s.out, s.handlers[id].decoder, f.offset, f.payload).Err?
    ensures var err := R.DataStep(u, s.gate, s.out, s.handlers[id], R.Deliver(f)).2;
            err.Some? && TakePeerFrame(AsSetup(u), AsRouter(s, n), id, f, Written) == FailWith(AsRouter(s, n), err.value)
  {
    hide SweepTable, Fail, InBounds, Overwrite, ToCore, TableOf;
    Listed(s, id);
    if f.Data? {
      var plain := if s.handlers[id].decoder then u.coder.Decode(f.payload) else Some(f.payload);
      if plain.Some? && |plain.value| < TWO64 { ToCoreRefuses(AsSetup(u), AsRouter(s, n), f.offset, plain.value, Written); }
      ToCoreIsFail(AsSetup(u), AsRouter(s, n), UndecodableData);
    } else {
      ToCoreIsFail(AsSetup(u), AsRouter(s, n), UnexpectedFrame);
    }
  }

  /** DATA before METADATA or beyond the file is a failure and nothing else. */
  lemma ToCoreRefuses(u: Setup, r: Router, offset: u64, p: bytes, w: Writing)
    ensures r.core.meta.None? ==> ToCore(u, r, OnData(offset, p, w)) == FailWith(r, DataBeforeMetadata)
    ensures r.core.meta.Some? && !InBounds(offset, |p|, r.core.meta.value.fileSize) ==>
              ToCore(u, r, OnData(offset, p, w)) == FailWith(r, OutOfBounds)
  {
    hide SweepTable, InBounds, Overwrite;
  }

  // ---- The watcher and the end of the control channel ----

  lemma WatcherAction(u: R.Setup, s: R.Receiver, a: R.CallAct, n: nat) returns (err: Option<CoreError>)
    requires Quiet(s.gate) && R.CanCall(s, a) && CallOf(u, s, R.Call(a)).Some? && RP.Inv(u, R.DoCall(s, a))
    ensures Refines(u, s, R.DoCall(s, a), err, Apply(AsSetup(u), AsRouter(s, n), CallOf(u, s, R.Call(a)).value), n)
  {
    hide RP.Inv, ToCore, TableOf, Refines, FailWith;
    var t := R.DoCall(s, a);
    SameTable(s, t);
    err := if a.ControlClosed? && s.gate.doneCloses == 0 then Some(ClosedEarly) else None;
    ToCoreIsFail(AsSetup(u), AsRouter(s, n), ClosedEarly);
    RefinesBy(u, s, t, err, Apply(AsSetup(u), AsRouter(s, n), CallOf(u, s, R.Call(a)).value), n);
  }

  // ---- A whole DATA frame ----

  /** The turn's next action if it is this one's turn. */
  function Act(u: R.Setup, s: R.Receiver, id: byte, a: R.DataAct): R.Receiver {
    if R.CanPeer(s, id, a) then R.DoPeer(u, s, id, a) else s
  }

  /** A data peer's whole turn: taking the frame, writing, counting and signalling, or stopping before that. */
  function WholeTurn(u: R.Setup, s: R.Receiver, id: byte, f: Frame, w: Writing): R.Receiver {
    Act(u, Act(u, Act(u, Act(u, s, id, R.Deliver(f)), id, R.Write(w)), id, R.Count), id, R.Signal)
  }

  /** An action without an error changes the peer's turn and the output. */
  lemma GoodAct(u: R.Setup, s: R.Receiver, id: byte, a: R.DataAct)
    requires R.CanPeer(s, id, a) && !a.Install? && R.DataStep(u, s.gate, s.out, s.handlers[id], a).2.None?
    ensures var x := R.DataStep(u, s.gate, s.out, s.handlers[id], a);
            Act(u, s, id, a) == s.(handlers := s.handlers[id := s.handlers[id].(turn := x.0)], out := x.1)
  {
    hide R.DataStep;
  }

  /** An action with an error reports it, too. */
  lemma BadAct(u: R.Setup, s: R.Receiver, id: byte, a: R.DataAct)
    requires R.CanPeer(s, id, a) && !a.Install? && R.DataStep(u, s.gate, s.out, s.handlers[id], a).2.Some?
    ensures var x := R.DataStep(u, s.gate, s.out, s.handlers[id], a);
            var t := s.(handlers := s.handlers[id := s.handlers[id].(turn := x.0)], out := x.1);
            Act(u, s, id, a) == R.Report(t, x.2.value)
  {
    hide R.DataStep;
  }

  /** After the test a payload waits for its write. */
  lemma Examined(u: R.Setup, g: R.DoneGate, o: R.Output, h: R.Handler, offset: u64, payload: bytes, plain: bytes)
    requires h.turn.Idle? && R.Examine(u, o, h.decoder, offset, payload) == Ok(plain)
    ensures R.DataStep(u, g, o, h, R.Deliver(Data(offset, payload))) == (R.Checked(offset, plain), o, None)
    ensures o.meta.Some? && offset + |plain| <= o.meta.value.fileSize && |plain| < TWO64
  {
    RP.ExamineOk(u, o, h.decoder, offset, payload);
    hide InBounds;
  }

  /** What becomes of the core in a write, a count and a signal. */
  lemma WriteIs(u: R.Setup, g: R.DoneGate, o: R.Output, h: R.Handler, offset: u64, p: bytes, w: Writing, n: nat)
    requires h.turn == R.Checked(offset, p) && o.meta.Some? && o.sized
    requires offset + |p| <= |o.sink| == o.meta.value.fileSize < TWO63
    ensures var x := R.DataStep(u, g, o, h, R.Write(w));
            if w.Written? && g.fileOpen then
              && x.0 == R.Wrote(|p|) && x.2.None?
              && WriteChunk(AsCore(o, g, n), offset, p, w)
                   == (AsCore(Signalled(Counted(x.1, |p|)), g, n + |p|), None)
            else x.2 == Some(WriteFailed) && x.0.Stopped? && WriteChunk(AsCore(o, g, n), offset, p, w) == (AsCore(x.1, g, n), x.2)
  {
    BoundsTestIsExact(offset, |p|, |o.sink|);
    hide R.PutAt, InBounds, Overwrite;
    RP.PutAtFits(o.sink, offset, p);
    if w.Failed? && w.prefix < |p| {
      RP.PutAtFits(o.sink, offset, p[..w.prefix]);
      if w.prefix == 0 { NothingOver(o.sink, offset); }
    }
  }

  lemma NothingOver(s: bytes, at: nat)
    requires at <= |s|
    ensures forall p: bytes :: |p| == 0 ==> Overwrite(s, at, p) == s
  {
    forall p: bytes | |p| == 0 ensures Overwrite(s, at, p) == s {
      assert s[..at] + p + s[at..] == s;
    }
  }

  /** The output with len more bytes counted. */
  function Counted(o: R.Output, len: nat): R.Output { o.(bytesWritten := (o.bytesWritten + len) % TWO64) }

  /** The output with allBytesCh closed if the count says so. */
  function Signalled(o: R.Output): R.Output {
    o.(allBytes := o.allBytes || (o.meta.Some? && o.bytesWritten >= o.meta.value.fileSize))
  }

  lemma CountIs(u: R.Setup, g: R.DoneGate, o: R.Output, h: R.Handler, len: nat)
    requires h.turn == R.Wrote(len)
    ensures R.DataStep(u, g, o, h, R.Count)
         == (R.Counted(o.meta.Some? && Counted(o, len).bytesWritten >= o.meta.value.fileSize), Counted(o, len), None)
  {
  }

  lemma SignalIs(u: R.Setup, g: R.DoneGate, o: R.Output, h: R.Handler)
    requires h.turn == R.Counted(o.meta.Some? && o.bytesWritten >= o.meta.value.fileSize)
    ensures R.DataStep(u, g, o, h, R.Signal) == (R.Idle, Signalled(o), None)
  {
  }

  /**
   * A DATA frame that passes the tests, taken without interruption, is the router's handling of it, with
   * whatever becomes of the write; the count of accepted bytes grows when it succeeds.
   */
  lemma TurnIsHandler(u: R.Setup, s: R.Receiver, id: byte, offset: u64, payload: bytes, plain: bytes, w: Writing, n: nat)
    returns (err: Option<CoreError>)
    requires RP.Inv(u, s) && Quiet(s.gate) && R.CanPeer(s, id, R.Deliver(Data(offset, payload))) && s.out.sized
    requires R.Examine(u, s.out, s.handlers[id].decoder, offset, payload) == Ok(plain)
    ensures var t, d := WholeTurn(u, s, id, Data(offset, payload), w),
                        Apply(AsSetup(u), AsRouter(s, n), PeerFrame(id, Data(offset, payload), w));
            Refines(u, s, t, err, d, if err.None? then n + |plain| else n)
  {
    hide RP.Inv, R.DataStep, R.CanPeer, Act, AsRouter, Apply, Refines, R.Examine, InBounds, FailWith, R.Report;
    var f := Data(offset, payload);
    TurnStarts(u, s, id, f);
    var h := s.handlers[id];
    Examined(u, s.gate, s.out, h, offset, payload, plain);
    GoodAct(u, s, id, R.Deliver(f));
    var s1 := Act(u, s, id, R.Deliver(f));
    NextTurn(s, s1, id, R.Checked(offset, plain), s.out);
    ActKeeps(u, s, id, R.Deliver(f));
    WriteIs(u, s.gate, s.out, s1.handlers[id], offset, plain, w, n);
    if w.Written? && s.gate.fileOpen {
      err := None;
      GoodTurn(u, s, s1, id, offset, payload, plain, w, n);
    } else {
      err := Some(WriteFailed);
      BadTurn(u, s, s1, id, offset, payload, plain, w, n);
    }
  }

  lemma TurnStarts(u: R.Setup, s: R.Receiver, id: byte, f: Frame)
    requires RP.Inv(u, s) && R.CanPeer(s, id, R.Deliver(f)) && s.out.sized
    ensures id in s.handlers && s.handlers[id].turn.Idle? && id in s.negs && R.InMap(s.negs[id].phase)
    ensures s.out.meta.Some? && |s.out.sink| == s.out.meta.value.fileSize < TWO63
  {
    hide RP.GateOk, RP.TurnsOk, RP.AnswersOk, RP.NegsOk;
  }

  /** s1 is s with peer id's turn at this point. */
  lemma NextTurn(s: R.Receiver, s1: R.Receiver, id: byte, turn: R.Turn, o: R.Output)
    requires id in s.handlers && s1 == s.(handlers := s.handlers[id := s.handlers[id].(turn := turn)], out := o)
    ensures id in s1.handlers && s1.handlers[id] == s.handlers[id].(turn := turn) && s1.gate == s.gate
    ensures turn.Checked? ==> forall w :: R.CanPeer(s1, id, R.Write(w))
    ensures turn.Wrote? ==> R.CanPeer(s1, id, R.Count)
    ensures turn.Counted? ==> R.CanPeer(s1, id, R.Signal)
    ensures turn.Stopped? ==> !R.CanPeer(s1, id, R.Count) && !R.CanPeer(s1, id, R.Signal)
  {
  }

  lemma ActKeeps(u: R.Setup, s: R.Receiver, id: byte, a: R.DataAct)
    requires RP.Inv(u, s)
    ensures RP.Inv(u, Act(u, s, id, a))
  {
    hide RP.Inv, R.DoPeer, R.CanPeer;
    if R.CanPeer(s, id, a) { RP.PeerKeeps(u, s, id, a); }
  }

  /** What the router's handler makes of an accepted payload. */
  lemma HandlerIs(u: R.Setup, s: R.Receiver, id: byte, offset: u64, payload: bytes, plain: bytes, w: Writing, n: nat)
    requires id in s.handlers && id in s.negs && R.InMap(s.negs[id].phase)
    requires R.Examine(u, s.out, s.handlers[id].decoder, offset, payload) == Ok(plain)
    ensures Apply(AsSetup(u), AsRouter(s, n), PeerFrame(id, Data(offset, payload), w))
         == ToCore(AsSetup(u), AsRouter(s, n), OnData(offset, plain, w))
  {
    hide InBounds, ToCore, TableOf;
    Listed(s, id);
  }

  lemma GoodTurn(u: R.Setup, s: R.Receiver, s1: R.Receiver, id: byte, offset: u64, payload: bytes, plain: bytes, w: Writing, n: nat)
    requires RP.Inv(u, s) && Quiet(s.gate) && id in s.handlers && id in s.negs && R.InMap(s.negs[id].phase)
    requires R.Examine(u, s.out, s.handlers[id].decoder, offset, payload) == Ok(plain) && s.out.meta.Some?
    requires s1 == s.(handlers := s.handlers[id := s.handlers[id].(turn := R.Checked(offset, plain))])
    requires s1 == Act(u, s, id, R.Deliver(Data(offset, payload)))
    requires R.CanPeer(s1, id, R.Write(w)) && id in s1.handlers && RP.Inv(u, s1)
    requires var x := R.DataStep(u, s.gate, s.out, s1.handlers[id], R.Write(w));
             && x.0 == R.Wrote(|plain|) && x.2.None?
             && WriteChunk(AsCore(s.out, s.gate, n), offset, plain, w)
                  == (AsCore(Signalled(Counted(x.1, |plain|)), s.gate, n + |plain|), None)
    ensures Refines(u, s, WholeTurn(u, s, id, Data(offset, payload), w), None,
                    Apply(AsSetup(u), AsRouter(s, n), PeerFrame(id, Data(offset, payload), w)), n + |plain|)
  {
    hide RP.Inv, R.DataStep, R.CanPeer, Act, Apply, Refines, R.Examine, InBounds, FailWith, WriteChunk, TableOf, AsCore, Signalled;
    var x := R.DataStep(u, s.gate, s.out, s1.handlers[id], R.Write(w));
    GoodAct(u, s1, id, R.Write(w));
    ActKeeps(u, s1, id, R.Write(w));
    var s2 := Act(u, s1, id, R.Write(w));
    NextTurn(s1, s2, id, R.Wrote(|plain|), x.1);
    var t := CountAndSignal(u, s2, id, |plain|);
    assert t.handlers == s.handlers[id := s.handlers[id].(turn := R.Idle)];
    TurnTable(s, t, id);
    HandlerIs(u, s, id, offset, payload, plain, w, n);
    WrittenIs(AsSetup(u), AsRouter(s, n), offset, plain, w, AsCore(t.out, t.gate, n + |plain|));
    NoCalls(s, t);
    RefinesBy(u, s, t, None, Apply(AsSetup(u), AsRouter(s, n), PeerFrame(id, Data(offset, payload), w)), n + |plain|);
  }

  /** The two actions after a write. */
  lemma CountAndSignal(u: R.Setup, s: R.Receiver, id: byte, len: nat) returns (t: R.Receiver)
    requires RP.Inv(u, s) && R.CanPeer(s, id, R.Count) && id in s.handlers && s.handlers[id].turn == R.Wrote(len)
    ensures t == Act(u, Act(u, s, id, R.Count), id, R.Signal) && RP.Inv(u, t)
    ensures t == s.(handlers := s.handlers[id := s.handlers[id].(turn := R.Idle)], out := Signalled(Counted(s.out, len)))
  {
    hide RP.Inv, R.DataStep, R.CanPeer, Act, Signalled;
    CountIs(u, s.gate, s.out, s.handlers[id], len);
    GoodAct(u, s, id, R.Count);
    ActKeeps(u, s, id, R.Count);
    var s1 := Act(u, s, id, R.Count);
    var o := Counted(s.out, len);
    NextTurn(s, s1, id, R.Counted(o.meta.Some? && o.bytesWritten >= o.meta.value.fileSize), o);
    SignalIs(u, s1.gate, s1.out, s1.handlers[id]);
    GoodAct(u, s1, id, R.Signal);
    ActKeeps(u, s1, id, R.Signal);
    t := Act(u, s1, id, R.Signal);
    assert t.handlers == s.handlers[id := s.handlers[id].(turn := R.Idle)];
  }

  lemma WrittenIs(u: Setup, r: Router, offset: u64, p: bytes, w: Writing, c: Core)
    requires WriteChunk(r.core, offset, p, w) == (c, None)
    ensures ToCore(u, r, OnData(offset, p, w)) == r.(core := c)
  {
    hide Overwrite, InBounds;
  }

  lemma UnwrittenIs(u: Setup, r: Router, offset: u64, p: bytes, w: Writing, c: Core, e: CoreError)
    requires WriteChunk(r.core, offset, p, w) == (c, Some(e))
    ensures ToCore(u, r, OnData(offset, p, w)) == FailWith(r.(core := c), e)
  {
    hide Overwrite, InBounds, SweepTable;
  }

  lemma BadTurn(u: R.Setup, s: R.Receiver, s1: R.Receiver, id: byte, offset: u64, payload: bytes, plain: bytes, w: Writing, n: nat)
    requires RP.Inv(u, s) && Quiet(s.gate) && id in s.handlers && id in s.negs && R.InMap(s.negs[id].phase)
    requires R.Examine(u, s.out, s.handlers[id].decoder, offset, payload) == Ok(plain)
    requires s1 == s.(handlers := s.handlers[id := s.handlers[id].(turn := R.Checked(offset, plain))])
    requires s1 == Act(u, s, id, R.Deliver(Data(offset, payload)))
    requires R.CanPeer(s1, id, R.Write(w)) && id in s1.handlers && RP.Inv(u, s1)
    requires var x := R.DataStep(u, s.gate, s.out, s1.handlers[id], R.Write(w));
             && x.0 == R.Stopped && x.2 == Some(WriteFailed)
             && WriteChunk(AsCore(s.out, s.gate, n), offset, plain, w) == (AsCore(x.1, s.gate, n), x.2)
    ensures Refines(u, s, WholeTurn(u, s, id, Data(offset, payload), w), Some(WriteFailed),
                    Apply(AsSetup(u), AsRouter(s, n), PeerFrame(id, Data(offset, payload), w)), n)
  {
    hide RP.Inv, R.DataStep, R.CanPeer, Apply, Refines, R.Examine, InBounds, FailWith, WriteChunk, TableOf, R.DoPeer, R.Report;
    var x := R.DataStep(u, s.gate, s.out, s1.handlers[id], R.Write(w));
    BadAct(u, s1, id, R.Write(w));
    ActKeeps(u, s1, id, R.Write(w));
    var t1 := s1.(handlers := s1.handlers[id := s1.handlers[id].(turn := R.Stopped)], out := x.1);
    var t := R.Report(t1, WriteFailed);
    ReportedIs(t1, WriteFailed);
    StoppedStays(t, id);
    assert t.handlers == s.handlers[id := s.handlers[id].(turn := R.Stopped)];
    TurnTable(s, t, id);
    HandlerIs(u, s, id, offset, payload, plain, w, n);
    UnwrittenIs(AsSetup(u), AsRouter(s, n), offset, plain, w, AsCore(x.1, s.gate, n), WriteFailed);
    RefinesBy(u, s, t, Some(WriteFailed), Apply(AsSetup(u), AsRouter(s, n), PeerFrame(id, Data(offset, payload), w)), n);
  }

  lemma ReportedIs(s: R.Receiver, e: CoreError)
    ensures var t := R.Report(s, e);
            Calls(s, t, Some(e)) && t == s.(callers := t.callers, protocolError := t.protocolError)
            && t.callers.verifiers == s.callers.verifiers
  {
  }

  lemma StoppedStays(t: R.Receiver, id: byte)
    requires id in t.handlers && t.handlers[id].turn.Stopped?
    ensures !R.CanPeer(t, id, R.Count) && !R.CanPeer(t, id, R.Signal)
  {
  }

  // ---- A verification ----

  /** Up to b blocks read back without an error. */
  function BlocksRead(u: R.Setup, o: R.Output, g: R.DoneGate, b: nat): R.DoneGate
    decreases b
  {
    if b == 0 || !R.CanHold(o, g, R.ReadBlock(true)) then g
    else BlocksRead(u, o, R.HoldStep(u, o, g, R.ReadBlock(true)), b - 1)
  }

  lemma {:induction false} BlocksReadIs(u: R.Setup, o: R.Output, g: R.DoneGate, b: nat)
    requires g.at == R.Held(R.Hashing) && o.meta.Some? && |o.sink| == o.meta.value.fileSize
    requires |g.hashed| <= |o.sink| && g.hashed == o.sink[..|g.hashed|]
    ensures BlocksRead(u, o, g, b) == g.(hashed := o.sink[..R.Min(|o.sink|, |g.hashed| + b * 65_536)])
    decreases b
  {
    if b == 0 || |g.hashed| == |o.sink| {
    } else {
      var n := |g.hashed|;
      var m := R.Min(|o.sink|, n + 65_536);
      assert o.sink[..m] == o.sink[..n] + o.sink[n..m];
      BlocksReadIs(u, o, g.(hashed := o.sink[..m]), b - 1);
    }
  }

  /** verifyIntegrity: the block that fails, if any, counts from 0. */
  function Hashed(u: R.Setup, o: R.Output, g: R.DoneGate, fault: Option<nat>): R.DoneGate
    requires g.at == R.Held(R.Hashing) && o.meta.Some?
    requires |o.sink| == o.meta.value.fileSize && g.hashed == []
  {
    BlocksReadIs(u, o, g, if fault.Some? then fault.value else |o.sink|);
    var g1 := BlocksRead(u, o, g, if fault.Some? then fault.value else |o.sink|);
    if R.CanHold(o, g1, R.ReadBlock(false)) then R.HoldStep(u, o, g1, R.ReadBlock(false))
    else R.HoldStep(u, o, g1, R.Judge)
  }

  /** The holder's actions after the sweep of a verification. */
  function Verified(u: R.Setup, o: R.Output, g: R.DoneGate, syncOk: bool, fault: Option<nat>): R.DoneGate
    requires g.at == R.Held(R.Syncing) && o.meta.Some?
    requires |o.sink| == o.meta.value.fileSize && g.hashed == []
  {
    var g1 := R.HoldStep(u, o, g, R.Sync(syncOk));
    var g2 := if syncOk then Hashed(u, o, g1, fault) else g1;
    if g2.at == R.Held(R.Keeping) then
      R.HoldStep(u, o, R.HoldStep(u, o, R.HoldStep(u, o, g2, R.Keep), R.Announce), R.Release)
    else if g2.at == R.Held(R.Discarding) then Abandon(u, o, g2)
    else g2
  }

  /** verifyAndClose from the gate on. */
  function VerifyThrough(u: R.Setup, s: R.Receiver, k: nat, syncOk: bool, fault: Option<nat>): R.Receiver
    requires R.CanVerify(s, k, R.Enter) && s.out.meta.Some? && |s.out.sink| == s.out.meta.value.fileSize
             && s.gate.hashed == []
  {
    var s1 := R.DoHold(u, R.DoVerify(s, k, R.Enter), R.Sweep);
    s1.(gate := Verified(u, s1.out, s1.gate, syncOk, fault))
  }

  /** Whether reading size bytes gets as far as the block that fails. */
  predicate ReadsAll(size: nat, fault: Option<nat>) { fault.None? || fault.value * 65_536 >= size }

  lemma VerifiedIs(u: R.Setup, o: R.Output, g: R.DoneGate, syncOk: bool, fault: Option<nat>)
    requires g.at == R.Held(R.Syncing) && o.meta.Some? && |o.sink| == o.meta.value.fileSize && g.hashed == []
             && g.result.None?
    ensures var d := Verified(u, o, g, syncOk, fault);
            var bad := if !syncOk then Some(SyncFailed) else if !ReadsAll(|o.sink|, fault) then Some(HashReadFailed)
                       else if u.hash(o.sink) != o.meta.value.sha256 then Some(IntegrityFailed) else None;
            && d.at.Finished? && d.result == bad && d.doneCloses == g.doneCloses + 1 && d.cleanups == g.cleanups
            && !d.fileOpen && d.hasPath == g.hasPath && d.removed == (if bad.Some? then g.hasPath else g.removed)
  {
    if syncOk { HashedIs(u, o, R.HoldStep(u, o, g, R.Sync(true)), fault); }
    hide Hashed;
  }

  lemma HashedIs(u: R.Setup, o: R.Output, g: R.DoneGate, fault: Option<nat>)
    requires g.at == R.Held(R.Hashing) && o.meta.Some? && |o.sink| == o.meta.value.fileSize && g.hashed == []
    ensures var d := Hashed(u, o, g, fault);
            && d == g.(hashed := d.hashed, at := d.at, result := d.result)
            && (!ReadsAll(|o.sink|, fault) ==> d.at == R.Held(R.Discarding) && d.result == Some(HashReadFailed))
            && (ReadsAll(|o.sink|, fault) && u.hash(o.sink) != o.meta.value.sha256 ==>
                  d.at == R.Held(R.Discarding) && d.result == Some(IntegrityFailed))
            && (ReadsAll(|o.sink|, fault) && u.hash(o.sink) == o.meta.value.sha256 ==>
                  d.at == R.Held(R.Keeping) && d.result == g.result)
  {
    var b := if fault.Some? then fault.value else |o.sink|;
    BlocksReadIs(u, o, g, b);
    assert o.sink[..|o.sink|] == o.sink;
    hide BlocksRead;
  }

  /** A verification from the gate on. */
  lemma EnteredIsVerify(u: R.Setup, s: R.Receiver, k: nat, syncOk: bool, fault: Option<nat>, n: nat)
    requires RP.Inv(u, s) && R.CanVerify(s, k, R.Enter) && s.out.allBytes
    requires s.out.meta.Some? && s.out.bytesWritten <= s.out.meta.value.fileSize
    ensures |s.out.sink| == s.out.meta.value.fileSize && s.gate.hashed == []
    ensures AsRouter(VerifyThrough(u, s, k, syncOk, fault), n)
         == ToCore(AsSetup(u), AsRouter(s, n), OnVerify(false, syncOk, ReadsAll(|s.out.sink|, fault)))
    ensures VerifyThrough(u, s, k, syncOk, fault).callers.fails == s.callers.fails
    ensures VerifyThrough(u, s, k, syncOk, fault).gate.at.Finished?
  {
    hide RP.Inv, TableOf, SweepTable, AsCore, VerifyThrough, Verify, ReadsAll, R.CanVerify;
    VerifyStarts(u, s, k);
    VerifyTable(u, s, k, syncOk, fault);
    VerifyCore(u, s, k, syncOk, fault, n);
  }

  /** What a verification finds when it enters the gate. */
  lemma VerifyStarts(u: R.Setup, s: R.Receiver, k: nat)
    requires RP.Inv(u, s) && R.CanVerify(s, k, R.Enter) && s.out.meta.Some?
    ensures |s.out.sink| == s.out.meta.value.fileSize && s.gate.hashed == []
    ensures s.gate.result.None? && s.gate.doneCloses == 0 && s.gate.cleanups == 0 && !s.gate.removed
  {
    hide RP.TurnsOk, RP.NegsOk, RP.AnswersOk, RP.HandlersOk;
  }

  lemma VerifyTable(u: R.Setup, s: R.Receiver, k: nat, syncOk: bool, fault: Option<nat>)
    requires RP.Inv(u, s) && R.CanVerify(s, k, R.Enter)
    requires s.out.meta.Some? && |s.out.sink| == s.out.meta.value.fileSize && s.gate.hashed == []
    ensures var d := VerifyThrough(u, s, k, syncOk, fault);
            TableOf(d) == SweepTable(TableOf(s)) && d.completeSeen == s.completeSeen && d.routing == s.routing
            && |d.callers.verifiers| == |s.callers.verifiers| && d.callers.fails == s.callers.fails
  {
    hide RP.Inv, TableOf, SweepTable, Verified, R.InMap;
    var s0 := R.DoVerify(s, k, R.Enter);
    RP.CallKeeps(u, s, R.Verify(k, R.Enter));
    SameTable(s, s0);
    SweepIsCleanup(u, s0);
    SameTable(R.DoHold(u, s0, R.Sweep), VerifyThrough(u, s, k, syncOk, fault));
  }

  lemma VerifyCore(u: R.Setup, s: R.Receiver, k: nat, syncOk: bool, fault: Option<nat>, n: nat)
    requires R.CanVerify(s, k, R.Enter) && s.out.allBytes
    requires s.out.meta.Some? && s.out.bytesWritten <= s.out.meta.value.fileSize
    requires |s.out.sink| == s.out.meta.value.fileSize && s.gate.hashed == []
    requires s.gate.result.None? && s.gate.doneCloses == 0 && s.gate.cleanups == 0 && !s.gate.removed
    ensures var d := VerifyThrough(u, s, k, syncOk, fault);
            var c := Verify(AsCore(s.out, s.gate, n), false, syncOk, ReadsAll(|s.out.sink|, fault), u.hash);
            AsCore(d.out, d.gate, n) == c && c.cleanups > AsCore(s.out, s.gate, n).cleanups && d.gate.at.Finished?
  {
    hide Verified, R.InMap, ReadsAll;
    VerifiedIs(u, s.out, s.gate.(at := R.Held(R.Syncing), cleanups := 1), syncOk, fault);
  }

  // ---- verifyAndClose from its start ----

  /** What a verifier does next if it can. */
  function Next(s: R.Receiver, k: nat, a: R.VerifyAct): R.Receiver { if R.CanVerify(s, k, a) then R.DoVerify(s, k, a) else s }

  /** A verifier may enter a gate that it finds as it should. */
  predicate Able(s: R.Receiver, k: nat) {
    R.CanVerify(s, k, R.Enter) && s.out.meta.Some? && |s.out.sink| == s.out.meta.value.fileSize && s.gate.hashed == []
  }

  /**
   * A whole verification: without METADATA it fails; otherwise it sees done closed, or the timer fires, or
   * it waits for the bytes, tests their count, and goes through the gate.
   */
  function WholeVerify(u: R.Setup, s: R.Receiver, k: nat, timedOut: bool, syncOk: bool, fault: Option<nat>): R.Receiver {
    var s1 := Next(s, k, R.Start);
    if s.gate.doneCloses > 0 then Next(s1, k, R.Quit)
    else if timedOut then Next(s1, k, R.TimeOut)
    else
      var s2 := Next(Next(s1, k, R.Pass), k, R.Compare);
      if Able(s2, k) then VerifyThrough(u, s2, k, syncOk, fault) else s2
  }

  /** Only the verifier has moved. */
  ghost predicate Moved(s: R.Receiver, t: R.Receiver, k: nat, v: R.Verifier) {
    && t == s.(callers := t.callers, protocolError := t.protocolError)
    && k < |s.callers.verifiers| && t.callers.verifiers == s.callers.verifiers[k := v]
  }

  lemma VerifierStep(s: R.Receiver, k: nat, a: R.VerifyAct)
    requires R.CanVerify(s, k, a) && !a.Enter?
    ensures var (v, err) := R.VerifierNext(s, a);
            Moved(s, R.DoVerify(s, k, a), k, v) && Calls(s, R.DoVerify(s, k, a), err)
  {
    hide R.VerifierNext;
  }

  lemma MovedRouter(s: R.Receiver, t: R.Receiver, k: nat, v: R.Verifier, n: nat)
    requires Moved(s, t, k, v)
    ensures AsRouter(t, n) == AsRouter(s, n)
  {
    hide TableOf;
    SameTable(s, t);
  }

  lemma NextKeeps(u: R.Setup, s: R.Receiver, k: nat, a: R.VerifyAct)
    requires RP.Inv(u, s) && R.CanVerify(s, k, a)
    ensures RP.Inv(u, R.DoVerify(s, k, a))
  {
    hide RP.Inv, R.DoVerify, R.CanVerify;
    RP.CallKeeps(u, s, R.Verify(k, a));
  }

  /** What verifyAndClose does to the core when it does not get to the gate. */
  lemma VerifyCases(u: Setup, r: Router, timedOut: bool, syncOk: bool, readOk: bool)
    ensures var d := ToCore(u, r, OnVerify(timedOut, syncOk, readOk));
            && (r.core.meta.None? ==> d == FailWith(r, VerifyBeforeMetadata))
            && (r.core.meta.Some? && r.core.done ==> d == r)
            && (r.core.meta.Some? && !r.core.done && timedOut ==> d == FailWith(r, TimedOut))
            && (r.core.meta.Some? && !r.core.done && !timedOut && !r.core.allBytes ==> d == r)
            && (r.core.meta.Some? && !r.core.done && !timedOut && r.core.allBytes ==>
                  r.core.bytesWritten > r.core.meta.value.fileSize ==> d == FailWith(r, TooManyBytes))
  {
    hide SweepTable, Integrity;
  }

  /**
   * A verification that nobody interrupts, from its start and whatever it meets - no METADATA, done, the
   * timer, missing bytes, too many bytes, a failing sync or read, a wrong digest - is the router's
   * verifyAndClose, the fail call it may make included.
   */
  lemma VerifyIsHandler(u: R.Setup, s: R.Receiver, k: nat, timedOut: bool, syncOk: bool, fault: Option<nat>, n: nat)
    returns (err: Option<CoreError>)
    requires RP.Inv(u, s) && Quiet(s.gate) && k < |s.callers.verifiers| && s.callers.verifiers[k].Started?
    ensures Refines(u, s, WholeVerify(u, s, k, timedOut, syncOk, fault), err,
                    ToCore(AsSetup(u), AsRouter(s, n), OnVerify(timedOut, syncOk, ReadsAll(|s.out.sink|, fault))), n)
  {
    hide RP.Inv, R.DoVerify, ToCore, FailWith, Refines, TableOf, VerifyThrough, ReadsAll, Calls, R.VerifierNext;
    VerifyCases(AsSetup(u), AsRouter(s, n), timedOut, syncOk, ReadsAll(|s.out.sink|, fault));
    NextKeeps(u, s, k, R.Start);
    VerifierStep(s, k, R.Start);
    VerdictStart(s);
    var s1 := R.DoVerify(s, k, R.Start);
    var d := ToCore(AsSetup(u), AsRouter(s, n), OnVerify(timedOut, syncOk, ReadsAll(|s.out.sink|, fault)));
    if s.out.meta.None? {
      err := Some(VerifyBeforeMetadata);
      MovedRouter(s, s1, k, R.Returned, n);
      RefinesBy(u, s, s1, err, d, n);
    } else {
      MovedRouter(s, s1, k, R.Waiting, n);
      SameCalls(s, s1);
      err := WaitingVerifier(u, s, s1, k, timedOut, syncOk, fault, n);
    }
  }

  lemma VerdictStart(s: R.Receiver)
    ensures R.VerifierNext(s, R.Start)
         == if s.out.meta.None? then (R.Returned, Some(VerifyBeforeMetadata)) else (R.Waiting, None)
    ensures R.VerifierNext(s, R.Quit) == (R.Returned, None) && R.VerifierNext(s, R.Pass) == (R.Passed, None)
    ensures R.VerifierNext(s, R.TimeOut) == (R.Returned, Some(TimedOut))
    ensures s.out.meta.Some? ==>
              R.VerifierNext(s, R.Compare)
                == if s.out.bytesWritten > s.out.meta.value.fileSize then (R.Returned, Some(TooManyBytes)) else (R.Entering, None)
  {
  }

  lemma SameCalls(s: R.Receiver, t: R.Receiver)
    requires Calls(s, t, None)
    ensures t.callers.fails == s.callers.fails
  {
  }

  lemma CallsFrom(s: R.Receiver, s1: R.Receiver, t: R.Receiver, err: Option<CoreError>)
    requires s1.callers.fails == s.callers.fails && Calls(s1, t, err)
    ensures Calls(s, t, err)
  {
  }

  lemma WaitingVerifier(u: R.Setup, s: R.Receiver, s1: R.Receiver, k: nat, timedOut: bool, syncOk: bool, fault: Option<nat>, n: nat)
    returns (err: Option<CoreError>)
    requires RP.Inv(u, s1) && Quiet(s.gate) && s.out.meta.Some? && k < |s.callers.verifiers|
    requires s.callers.verifiers[k].Started? && s1 == R.DoVerify(s, k, R.Start)
    requires Moved(s, s1, k, R.Waiting) && s1.callers.fails == s.callers.fails && AsRouter(s1, n) == AsRouter(s, n)
    ensures Refines(u, s, WholeVerify(u, s, k, timedOut, syncOk, fault), err,
                    ToCore(AsSetup(u), AsRouter(s, n), OnVerify(timedOut, syncOk, ReadsAll(|s.out.sink|, fault))), n)
  {
    hide RP.Inv, R.DoVerify, ToCore, FailWith, Refines, TableOf, VerifyThrough, ReadsAll, Calls, R.VerifierNext;
    VerifyCases(AsSetup(u), AsRouter(s, n), timedOut, syncOk, ReadsAll(|s.out.sink|, fault));
    VerdictStart(s1);
    var d := ToCore(AsSetup(u), AsRouter(s, n), OnVerify(timedOut, syncOk, ReadsAll(|s.out.sink|, fault)));
    if s.gate.doneCloses > 0 || timedOut {
      var a := if s.gate.doneCloses > 0 then R.Quit else R.TimeOut;
      var t := R.DoVerify(s1, k, a);
      err := if a.Quit? then None else Some(TimedOut);
      NextKeeps(u, s1, k, a);
      VerifierStep(s1, k, a);
      MovedRouter(s1, t, k, R.Returned, n);
      CallsFrom(s, s1, t, err);
      RefinesBy(u, s, t, err, d, n);
    } else if !s.out.allBytes {
      err := None;
      NoCalls(s, s1);
      RefinesBy(u, s, s1, None, d, n);
    } else {
      err := PassingVerifier(u, s, s1, k, syncOk, fault, n);
    }
  }

  lemma NoCalls(s: R.Receiver, t: R.Receiver)
    requires t.callers.fails == s.callers.fails
    ensures Calls(s, t, None)
  {
  }

  lemma PassingVerifier(u: R.Setup, s: R.Receiver, s1: R.Receiver, k: nat, syncOk: bool, fault: Option<nat>, n: nat)
    returns (err: Option<CoreError>)
    requires RP.Inv(u, s1) && Quiet(s.gate) && s.out.meta.Some? && k < |s.callers.verifiers|
    requires s.callers.verifiers[k].Started? && s1 == R.DoVerify(s, k, R.Start)
    requires Moved(s, s1, k, R.Waiting) && s1.callers.fails == s.callers.fails && AsRouter(s1, n) == AsRouter(s, n)
    requires s.gate.doneCloses == 0 && s.out.allBytes
    ensures Refines(u, s, WholeVerify(u, s, k, false, syncOk, fault), err,
                    ToCore(AsSetup(u), AsRouter(s, n), OnVerify(false, syncOk, ReadsAll(|s.out.sink|, fault))), n)
  {
    hide RP.Inv, R.DoVerify, ToCore, FailWith, Refines, TableOf, VerifyThrough, ReadsAll, Calls, R.VerifierNext;
    VerifyCases(AsSetup(u), AsRouter(s, n), false, syncOk, ReadsAll(|s.out.sink|, fault));
    var d := ToCore(AsSetup(u), AsRouter(s, n), OnVerify(false, syncOk, ReadsAll(|s.out.sink|, fault)));
    VerdictStart(s1);
    NextKeeps(u, s1, k, R.Pass);
    VerifierStep(s1, k, R.Pass);
    var p := R.DoVerify(s1, k, R.Pass);
    MovedRouter(s1, p, k, R.Passed, n);
    SameCalls(s1, p);
    VerdictStart(p);
    NextKeeps(u, p, k, R.Compare);
    VerifierStep(p, k, R.Compare);
    var s2 := R.DoVerify(p, k, R.Compare);
    if s.out.bytesWritten > s.out.meta.value.fileSize {
      err := Some(TooManyBytes);
      MovedRouter(p, s2, k, R.Returned, n);
      CallsFrom(s, p, s2, err);
      RefinesBy(u, s, s2, err, d, n);
    } else {
      err := None;
      MovedRouter(p, s2, k, R.Entering, n);
      SameCalls(p, s2);
      FreeGate(u, s2);
      EnteredIsVerify(u, s2, k, syncOk, fault, n);
      NoCalls(s, VerifyThrough(u, s2, k, syncOk, fault));
      RefinesNow(u, s, VerifyThrough(u, s2, k, syncOk, fault), d, n);
    }
  }

  lemma FreeGate(u: R.Setup, s: R.Receiver)
    requires RP.Inv(u, s) && Quiet(s.gate) && s.gate.doneCloses == 0
    ensures s.gate.at.Free?
  {
    assert RP.GateOk(u, s.out.meta, s.gate);
  }

  lemma RefinesNow(u: R.Setup, s: R.Receiver, t: R.Receiver, d: Router, n: nat)
    requires Quiet(t.gate) && Calls(s, t, None) && AsRouter(t, n) == d
    ensures Refines(u, s, t, None, d, n)
  {
  }
}
