/** Negotiation, the calls to the gate, and the gate's holder, at the receiver of a whole transfer. */
module TransferLocal {
  import opened Bytes
  import opened Frames
  import opened Pieces
  import opened Coders
  import opened CoreSpec
  import opened Transfer
  import opened Coverage
  import opened TransferProofs
  import opened TransferSteps
  import opened TransferWriting
  import R = MultiReceiver
  import HP = HandshakeProofs
  import PP = PipelineProofs
  import RP = ReceiverProofs
  import SD = Shutdown

  // ---- Negotiation ----

  lemma AnswersDistinct(p: Plan, s: System)
    requires RP.AnswersOk(s.rcv) && HP.ShapeOk(p.n, s.snd) && HP.NegsMatch(s.snd, s.rcv.negs, s.routed)
    ensures HP.Distinct(p.n, s.rcv.answers)
  {
    var a := s.rcv.answers;
    forall j, k | 0 <= j < k < |a| ensures a[j].id != a[k].id {
      assert s.rcv.negs[a[j].id].phase == R.Answered(a[j].sdp, j);
      assert s.rcv.negs[a[k].id].phase == R.Answered(a[k].sdp, k);
    }
  }

  /** What an action of peer id's negotiator changes. */
  ghost predicate Negotiates(s: System, id: byte, a: R.NegAct, s': System) {
    && id in s.rcv.negs && R.CanNegotiate(s.rcv.gate, s.rcv.negs[id], a)
    && s' == s.(rcv := s'.rcv)
    && s'.rcv.out == s.rcv.out && s'.rcv.gate == s.rcv.gate && s'.rcv.handlers == s.rcv.handlers
    && s'.rcv.routing == s.rcv.routing && s'.rcv.callers.verifiers == s.rcv.callers.verifiers
    && s'.rcv.negs.Keys == s.rcv.negs.Keys
    && (forall i :: i in s.rcv.negs ==> s'.rcv.negs[i].offer == s.rcv.negs[i].offer)
    && s'.rcv.answers == s.rcv.answers + (if a == R.SendAnswer(true) then [Answer(id, s.rcv.negs[id].phase.answer)] else [])
    && (Blameless(s.rcv) ==> Blameless(s'.rcv))
  }

  lemma NegotiateIs(p: Plan, s: System, id: byte, a: R.NegAct, s': System)
    requires LocalStep(p, s, R.Negotiate(id, a), s')
    ensures Negotiates(s, id, a, s') && R.Can(s.rcv, R.Negotiate(id, a))
    ensures s'.rcv == R.Do(Setup(p), s.rcv, R.Negotiate(id, a))
  {
    RP.NegotiateFrame(s.rcv, id, a);
    assert R.NegStep(s.rcv.gate, s.rcv.negs[id], a, |s.rcv.answers|).offer == s.rcv.negs[id].offer;
    NegotiateQuiet(s.rcv, id, a);
    hide R.DoNegotiate, R.NegStep, Blameless;
  }

  lemma NegotiateQuiet(r: R.Receiver, id: byte, a: R.NegAct)
    requires id in r.negs && R.CanNegotiate(r.gate, r.negs[id], a)
    ensures Blameless(r) ==> Blameless(R.DoNegotiate(r, id, a))
  {
    hide R.NegStep;
  }

  lemma NegotiateKeeps(p: Plan, s: System, id: byte, a: R.NegAct, s': System)
    requires Inv(p, s) && LocalStep(p, s, R.Negotiate(id, a), s')
    ensures Inv(p, s')
  {
    hide RP.Inv, PP.Inv, PeersOk, MetaOk, DataOk, LocalStep, R.Do, R.Can, R.CanNegotiate, R.NegStep, FlagsOk, Blameless;
    NegotiateIs(p, s, id, a, s');
    RP.StepKeepsInv(Setup(p), s.rcv, R.Negotiate(id, a));
    NegotiatePeers(p, s, id, a, s');
    NegotiateMeta(p, s, id, a, s');
    if Healthy(s) { NegotiateData(p, s, id, a, s'); }
  }

  lemma NegotiateData(p: Plan, s: System, id: byte, a: R.NegAct, s': System)
    requires ShapeOk(p, s) && DataOk(p, s) && Negotiates(s, id, a, s')
    ensures ShapeOk(p, s') && DataOk(p, s')
  {
    hide R.CanNegotiate, DataOk, FlagsOk, Blameless;
    FlagsPart(p, s);
    FlagsSame(p, s.rcv, s'.rcv);
    DataSame(p, s, s');
  }

  lemma NegotiateMeta(p: Plan, s: System, id: byte, a: R.NegAct, s': System)
    requires |p.file| < TWO64 && MetaOk(p, s) && Negotiates(s, id, a, s')
    ensures MetaOk(p, s')
  {
    hide Blameless;
    assert id in s.rcv.negs.Keys;
  }

  lemma FlagsSame(p: Plan, r: R.Receiver, r': R.Receiver)
    requires FlagsOk(p, r) && r'.out == r.out && r'.handlers == r.handlers && r'.gate == r.gate
    requires r'.callers.verifiers == r.callers.verifiers
    ensures FlagsOk(p, r')
  {
  }

  lemma NegotiatePeers(p: Plan, s: System, id: byte, a: R.NegAct, s': System)
    requires |p.file| < TWO64 && PeersOk(p, s) && RP.Inv(Setup(p), s'.rcv) && Negotiates(s, id, a, s')
    ensures PeersOk(p, s')
  {
    assert RP.AnswersOk(s'.rcv);
    hide RP.Inv, HP.LogOk, HP.FlowOk, Blameless;
    assert HP.NegsMatch(s.snd, s'.rcv.negs, s.routed) by { OffersSame(s, s'); }
    AnswersDistinct(p, s');
    HP.AnswersFlow(p.n, s.snd, s.rcv.answers, s'.rcv.answers[|s.rcv.answers|..], s.heard);
    assert s'.rcv.answers == s.rcv.answers + s'.rcv.answers[|s.rcv.answers|..];
  }

  lemma OffersSame(s: System, s': System)
    requires HP.NegsMatch(s.snd, s.rcv.negs, s.routed) && s'.rcv.negs.Keys == s.rcv.negs.Keys
    requires forall i :: i in s.rcv.negs ==> s'.rcv.negs[i].offer == s.rcv.negs[i].offer
    ensures HP.NegsMatch(s.snd, s'.rcv.negs, s.routed)
  {
    forall id | id in s'.rcv.negs ensures id in s.rcv.negs {
      assert id in s'.rcv.negs.Keys;
    }
  }

  // ---- The callers of the gate ----

  lemma CallKeeps(p: Plan, s: System, a: R.CallAct, s': System)
    requires Inv(p, s) && LocalStep(p, s, R.Call(a), s')
    ensures Inv(p, s')
  {
    RP.StepKeepsInv(Setup(p), s.rcv, R.Call(a));
    RP.CallFrame(s.rcv, a);
    SD.StepSettles(Setup(p), s.rcv, R.Call(a));
    CallMeta(p, s, a, s');
    if Healthy(s) { CallData(p, s, a, s'); }
    hide RP.Inv, PP.Inv, PeersOk, MetaOk, DataOk, R.DoCall;
  }

  lemma CallMeta(p: Plan, s: System, a: R.CallAct, s': System)
    requires Inv(p, s) && LocalStep(p, s, R.Call(a), s')
    ensures PeersOk(p, s') && MetaOk(p, s')
  {
    RP.CallFrame(s.rcv, a);
    hide RP.Inv, PP.Inv, DataOk, R.DoCall, HP.LogOk, HP.FlowOk, HP.NegsMatch;
  }

  lemma CallData(p: Plan, s: System, a: R.CallAct, s': System)
    requires Inv(p, s) && Healthy(s) && LocalStep(p, s, R.Call(a), s')
    ensures ShapeOk(p, s')
    ensures if Healthy(s') then DataOk(p, s') else !R.BlamesSender(s'.rcv.gate.result.value)
  {
    RP.CallFrame(s.rcv, a);
    CountBounded(p, s);
    CallFlags(p, s, a);
    hide RP.Inv, PP.Inv, PeersOk, MetaOk, R.DoCall, CursorsOk, SumOk, SinkOk, FlagsOk, Blameless;
    if Healthy(s') { DataCalled(p, s, s'); }
  }

  /** The bytes counted never exceed the file. */
  lemma CountBounded(p: Plan, s: System)
    requires Inv(p, s) && Healthy(s)
    ensures s.rcv.out.bytesWritten <= |p.file|
  {
    hide RP.Inv, PP.Inv, PeersOk, MetaOk, CursorsOk, SinkOk, FlagsOk, Blameless;
    forall i | 0 <= i < p.n ensures AllCarry(|p.file|, s.pipe.sent[i]) { FramesCarry(PipeConfig(p), s.pipe, i); }
    WireIsBounded(p, s.pipe);
    SumBelow(s.pipe.sent, s.counted, p.n, |p.file|);
  }

  lemma CallFlags(p: Plan, s: System, a: R.CallAct)
    requires Inv(p, s) && Healthy(s) && R.CanCall(s.rcv, a) && s.rcv.out.bytesWritten <= |p.file|
    ensures var d := R.DoCall(s.rcv, a);
            if d.gate.result.None? then FlagsOk(p, d) && Blameless(d) else !R.BlamesSender(d.gate.result.value)
  {
    assert RP.SizeOk(s.rcv) && RP.GateOk(Setup(p), s.rcv.out.meta, s.rcv.gate);
    hide RP.Inv, PP.Inv, PeersOk, DataOk, R.DoCall;
    FlagsPart(p, s);
    if a.Verify? {
      VerifyFlags(p, s.rcv, a.k, a.step);
      VerifyIs(s.rcv, a.k, a.step);
    } else {
      FailFlags(p, s.rcv, a);
    }
  }

  lemma VerifyIs(r: R.Receiver, k: nat, a: R.VerifyAct)
    requires R.CanVerify(r, k, a)
    ensures R.DoCall(r, R.Verify(k, a)) == R.DoVerify(r, k, a)
  {
  }

  lemma FailFlags(p: Plan, r: R.Receiver, a: R.CallAct)
    requires FlagsOk(p, r) && Blameless(r) && R.CanCall(r, a) && !a.Verify?
    ensures var d := R.DoCall(r, a);
            if d.gate.result.None? then FlagsOk(p, d) && Blameless(d)
            else r.gate.result.None? ==> !R.BlamesSender(d.gate.result.value)
  {
    hide Enough, R.DoVerify, R.CanVerify;
  }

  lemma VerifyFlags(p: Plan, r: R.Receiver, k: nat, a: R.VerifyAct)
    requires FlagsOk(p, r) && Blameless(r) && RP.SizeOk(r) && R.CanVerify(r, k, a) && r.gate.result.None?
    requires r.out.meta.Some? ==> r.out.bytesWritten <= r.out.meta.value.fileSize
    requires r.gate.at.Free? ==> r.gate.hashed == []
    ensures var d := R.DoVerify(r, k, a); FlagsOk(p, d) && Blameless(d) && d.gate.result.None?
  {
    hide Enough;
  }

  lemma DataCalled(p: Plan, s: System, s': System)
    requires ShapeOk(p, s) && DataOk(p, s) && ShapeOk(p, s') && FlagsOk(p, s'.rcv) && Blameless(s'.rcv)
    requires s' == s.(rcv := s'.rcv) && s'.rcv.handlers == s.rcv.handlers && s'.rcv.out == s.rcv.out
    requires s'.rcv.gate.cleanups == s.rcv.gate.cleanups
    ensures ShapeOk(p, s') && DataOk(p, s')
  {
    hide CursorOk, Landed, SumTo, FlagsOk;
    forall i: byte | i < p.n
      ensures CursorOk(p, s'.rcv, s'.pipe.sent[i], i, s'.taken[i], s'.wrote[i], s'.counted[i])
    {
      assert CursorOk(p, s.rcv, s.pipe.sent[i], i, s.taken[i], s.wrote[i], s.counted[i]);
      CursorSame(p, s.rcv, s'.rcv, s.pipe.sent[i], i, s.taken[i], s.wrote[i], s.counted[i]);
    }
  }

  // ---- The gate's holder ----

  lemma HoldKeeps(p: Plan, s: System, a: R.HoldAct, s': System)
    requires Inv(p, s) && LocalStep(p, s, R.Hold(a), s')
    ensures Inv(p, s')
  {
    HoldIs(p, s, a, s');
    SD.StepSettles(Setup(p), s.rcv, R.Hold(a));
    hide RP.Inv, PP.Inv, PeersOk, MetaOk, DataOk, LocalStep, R.Do, R.Can, R.HoldStep;
    RP.StepKeepsInv(Setup(p), s.rcv, R.Hold(a));
    HoldPeers(p, s, a, s');
    if Healthy(s) { HoldData(p, s, a, s'); }
  }

  /** What the holder of the gate changes. */
  ghost predicate Holds(p: Plan, s: System, a: R.HoldAct, s': System) {
    && R.CanHold(s.rcv.out, s.rcv.gate, a)
    && s' == s.(rcv := s'.rcv) && s'.rcv.gate == R.HoldStep(Setup(p), s.rcv.out, s.rcv.gate, a)
    && s'.rcv.out == s.rcv.out && s'.rcv.callers == s.rcv.callers && s'.rcv.routing == s.rcv.routing
    && s'.rcv.answers == s.rcv.answers && s'.rcv.protocolError == s.rcv.protocolError
    && s'.rcv.negs.Keys == s.rcv.negs.Keys && s'.rcv.handlers.Keys == s.rcv.handlers.Keys
    && (forall i :: i in s.rcv.negs ==> s'.rcv.negs[i].offer == s.rcv.negs[i].offer)
    && (forall i :: i in s.rcv.handlers ==> s'.rcv.handlers[i].turn == s.rcv.handlers[i].turn)
    && (!a.Sweep? ==> s'.rcv.handlers == s.rcv.handlers)
  }

  lemma HoldIs(p: Plan, s: System, a: R.HoldAct, s': System)
    requires LocalStep(p, s, R.Hold(a), s')
    ensures Holds(p, s, a, s') && R.Can(s.rcv, R.Hold(a)) && s'.rcv == R.Do(Setup(p), s.rcv, R.Hold(a))
  {
    hide R.HoldStep;
  }

  lemma HoldPeers(p: Plan, s: System, a: R.HoldAct, s': System)
    requires |p.file| < TWO64 && PeersOk(p, s) && MetaOk(p, s) && Holds(p, s, a, s')
    ensures PeersOk(p, s') && MetaOk(p, s')
  {
    hide R.HoldStep, HP.LogOk, HP.FlowOk;
    OffersSame(s, s');
    assert s'.rcv.negs != map[] ==> s.rcv.negs != map[] by {
      forall id | id in s'.rcv.negs ensures id in s.rcv.negs { assert id in s'.rcv.negs.Keys; }
    }
  }

  /** A verification of an honest transfer reads the file itself, so the digest matches. */
  lemma HoldData(p: Plan, s: System, a: R.HoldAct, s': System)
    requires Inv(p, s) && Healthy(s) && Holds(p, s, a, s')
    ensures if Healthy(s') then DataOk(p, s') else !R.BlamesSender(s'.rcv.gate.result.value)
  {
    assert RP.GateOk(Setup(p), s.rcv.out.meta, s.rcv.gate) && RP.SizeOk(s.rcv);
    FlagsPart(p, s);
    if RP.Clean(s.rcv.gate) { AllCounted(p, s); }
    HonestHold(p, s.rcv, a);
    hide RP.Inv, PP.Inv, PeersOk, MetaOk, R.HoldStep, SumOk, SinkOk, Blameless, FlagsOk, Whole, RP.GateOk;
    if Healthy(s') {
      HeldFlags(p, s.rcv, s'.rcv);
      HeldCursors(p, s, a, s');
      HeldRest(p, s, s');
    }
  }

  lemma HonestHold(p: Plan, r: R.Receiver, a: R.HoldAct)
    requires |p.file| < TWO64 && RP.GateOk(Setup(p), r.out.meta, r.gate) && R.CanHold(r.out, r.gate, a)
             && r.gate.result.None?
    requires FlagsOk(p, r)
    requires RP.Clean(r.gate) ==> r.out.sink == p.file && r.out.meta == Some(Announced(p))
    ensures var g := R.HoldStep(Setup(p), r.out, r.gate, a);
            && (g.result.Some? ==> !R.BlamesSender(g.result.value))
            && (g.result.None? && RP.Clean(g) ==> RP.Clean(r.gate) && g.hashed <= p.file)
            && (g.result.None? && !RP.Clean(r.gate) ==> !RP.Clean(g))
            && (a.Sweep? ==> g.cleanups > 0)
            && g.cleanups >= r.gate.cleanups
  {
    if a.ReadBlock? && |r.gate.hashed| < |r.out.sink| {
      var n := |r.gate.hashed|;
      var m := R.Min(|p.file|, n + 65_536);
      assert RP.Clean(r.gate);
      assert p.file[..m] == p.file[..n] + p.file[n..m];
    }
    if a.Judge? { assert r.gate.hashed == p.file; }
  }

  lemma HeldFlags(p: Plan, r: R.Receiver, r': R.Receiver)
    requires FlagsOk(p, r) && r'.out == r.out && r'.callers == r.callers
    requires r'.handlers.Keys == r.handlers.Keys
             && forall i :: i in r.handlers ==> r'.handlers[i].turn == r.handlers[i].turn
    requires RP.Clean(r'.gate) ==> RP.Clean(r.gate) && r'.gate.hashed <= p.file
    ensures FlagsOk(p, r')
  {
    forall i | i in r'.handlers ensures i in r.handlers { assert i in r'.handlers.Keys; }
  }

  lemma HeldCursors(p: Plan, s: System, a: R.HoldAct, s': System)
    requires ShapeOk(p, s) && CursorsOk(p, s) && Holds(p, s, a, s') && p.n <= 0x100
    requires s'.rcv.gate.cleanups >= s.rcv.gate.cleanups && (a.Sweep? ==> s'.rcv.gate.cleanups > 0)
    ensures CursorsOk(p, s')
  {
    hide R.HoldStep, TurnMatches;
    forall i: byte | i < p.n
      ensures CursorOk(p, s'.rcv, s'.pipe.sent[i], i, s'.taken[i], s'.wrote[i], s'.counted[i])
    {
      assert i in s'.rcv.handlers.Keys <==> i in s.rcv.handlers.Keys;
      assert CursorOk(p, s.rcv, s.pipe.sent[i], i, s.taken[i], s.wrote[i], s.counted[i]);
    }
  }

  lemma HeldRest(p: Plan, s: System, s': System)
    requires ShapeOk(p, s) && SumOk(p, s) && SinkOk(p, s) && Blameless(s.rcv)
    requires s' == s.(rcv := s'.rcv) && s'.rcv.out == s.rcv.out && s'.rcv.callers == s.rcv.callers
    requires s'.rcv.protocolError == s.rcv.protocolError
    ensures ShapeOk(p, s') && SumOk(p, s') && SinkOk(p, s') && Blameless(s'.rcv)
  {
  }
}
