/** What whole runs of the multi-connection receiver guarantee about its done gate and its sessions. */
module Shutdown {
  import opened Bytes
  import opened Frames
  import opened Coders
  import opened CoreSpec
  import opened MultiReceiver
  import opened ReceiverProofs

  // ---- One step ----

  /** What a step may no longer change: a taken gate stays taken, a result stays, done stays closed. */
  ghost predicate Settled(s: Receiver, d: Receiver) {
    && (!s.gate.at.Free? ==> !d.gate.at.Free?)
    && (s.gate.result.Some? ==> d.gate.result == s.gate.result)
    && (!s.gate.at.Free? && d.gate.result != s.gate.result ==>
          d.gate.result.value.SyncFailed? || d.gate.result.value.HashReadFailed? || d.gate.result.value.IntegrityFailed?)
    && (s.out.meta.Some? ==> d.out.meta == s.out.meta) && d.gate.hasPath == s.gate.hasPath
    && (s.gate.doneCloses == 1 ==>
          && d.gate.doneCloses == 1 && d.gate.result == s.gate.result && d.gate.removed == s.gate.removed
          && !d.gate.fileOpen && d.out.sink == s.out.sink)
  }

  lemma GateSettles(u: Setup, o: Output, g: DoneGate, a: HoldAct)
    requires GateOk(u, o.meta, g) && CanHold(o, g, a)
    ensures var g' := HoldStep(u, o, g, a);
            && !g.at.Free? && !g'.at.Free? && g'.hasPath == g.hasPath
            && (g.result.Some? ==> g'.result == g.result)
            && (g'.result != g.result ==>
                  g'.result.value.SyncFailed? || g'.result.value.HashReadFailed? || g'.result.value.IntegrityFailed?)
            && (g.doneCloses == 1 ==> g'.doneCloses == 1 && g'.result == g.result && g'.removed == g.removed && !g'.fileOpen)
  {
  }

  lemma StepSettles(u: Setup, s: Receiver, e: Action)
    requires Inv(u, s) && Can(s, e)
    ensures Settled(s, Do(u, s, e))
  {
    hide SizeOk, TurnsOk, NegsOk, AnswersOk, HandlersOk;
    hide TakeControl, DoNegotiate, CanNegotiate, NegStep, DoPeer, CanPeer, DoCall, CanCall, HoldStep, CanHold;
    match e {
      case Control(f, ok) => ControlSettles(u, s, f, ok);
      case Negotiate(id, a) => NegotiateFrame(s, id, a);
      case Peer(id, a) => PeerSettles(u, s, id, a);
      case Call(a) => CallSettles(u, s, a);
      case Hold(a) => GateSettles(u, s.out, s.gate, a);
    }
  }

  lemma ControlSettles(u: Setup, s: Receiver, f: Frame, ok: bool)
    requires GateOk(u, s.out.meta, s.gate)
    ensures Settled(s, TakeControl(s, f, ok))
  {
    hide MetadataStep;
    if f.Meta? { MetadataStepOk(s.out, s.gate.fileOpen, f.meta, ok); }
  }

  lemma PeerSettles(u: Setup, s: Receiver, id: byte, a: DataAct)
    requires GateOk(u, s.out.meta, s.gate) && CanPeer(s, id, a)
    ensures Settled(s, DoPeer(u, s, id, a))
  {
    hide PutAt, Examine;
  }

  lemma CallSettles(u: Setup, s: Receiver, a: CallAct)
    requires GateOk(u, s.out.meta, s.gate) && CanCall(s, a)
    ensures Settled(s, DoCall(s, a))
  {
    hide DoVerify, CanVerify;
    if a.Verify? { VerifySettles(u, s, a.k, a.step); }
  }

  lemma VerifySettles(u: Setup, s: Receiver, k: nat, a: VerifyAct)
    requires GateOk(u, s.out.meta, s.gate) && CanVerify(s, k, a)
    ensures Settled(s, DoVerify(s, k, a))
  {
    hide VerifierNext;
  }

  lemma {:induction false} RunSettles(u: Setup, run: seq<Receiver>, i: nat, j: nat)
    requires IsRun(u, run) && i <= j < |run|
    ensures Settled(run[i], run[j])
    decreases j
  {
    hide Do, Can, Inv;
    if i < j {
      RunSettles(u, run, i, j - 1);
      RunKeepsInv(u, run, i);
      RunKeepsInv(u, run, j - 1);
      assert Next(u, run[j - 1], run[j - 1 + 1]);
      var e :| Can(run[j - 1], e) && run[j] == Do(u, run[j - 1], e);
      StepSettles(u, run[j - 1], e);
      SettledChain(u, run[i], run[j - 1], run[j]);
    } else {
      RunKeepsInv(u, run, i);
      SettledSelf(u, run[i]);
    }
  }

  lemma SettledSelf(u: Setup, s: Receiver)
    requires Inv(u, s)
    ensures Settled(s, s)
  {
  }

  lemma SettledChain(u: Setup, a: Receiver, b: Receiver, c: Receiver)
    requires Inv(u, a) && Settled(a, b) && Settled(b, c)
    ensures Settled(a, c)
  {
  }

  // ---- The done gate ----

  /** done closes at most once, and cleanup has run exactly once by then. */
  lemma DoneClosesOnce(u: Setup, run: seq<Receiver>, t: nat)
    requires IsRun(u, run) && t < |run|
    ensures run[t].gate.doneCloses <= 1 && run[t].gate.cleanups <= 1
    ensures run[t].gate.doneCloses == 1 ==> run[t].gate.cleanups == 1
  {
    RunKeepsInv(u, run, t);
  }

  /** The first failure to reach the gate fixes the result for good, whoever calls fail or verifies later. */
  lemma FirstFailureDecides(u: Setup, run: seq<Receiver>, i: nat, j: nat, e: CoreError)
    requires IsRun(u, run) && i < j < |run|
    requires CanCall(run[i], EnterFail(e)) && run[i + 1] == DoCall(run[i], EnterFail(e))
    ensures run[j].gate.result == Some(e)
  {
    RunSettles(u, run, i + 1, j);
  }

  /** Once a verification holds the gate no call of fail can decide the result any more. */
  lemma FirstVerifierDecides(u: Setup, run: seq<Receiver>, i: nat, j: nat)
    requires IsRun(u, run) && i <= j < |run| && run[i].gate.at == Held(VerifySweep)
    ensures var r := run[j].gate.result;
            r.None? || r.value.SyncFailed? || r.value.HashReadFailed? || r.value.IntegrityFailed?
  {
    RunKeepsInv(u, run, i);
    RunSettles(u, run, i, j);
  }

  /**
   * When done is closed the result is nil exactly when the file is kept: a failed transfer's file is
   * removed whenever there is a path, a good one has the announced size and what was read back from
   * it has the announced digest.
   */
  lemma KeptExactlyWhenNil(u: Setup, run: seq<Receiver>, t: nat)
    requires IsRun(u, run) && t < |run| && run[t].gate.doneCloses == 1
    ensures var g, o := run[t].gate, run[t].out;
            && !g.fileOpen
            && (g.removed <==> g.result.Some? && g.hasPath)
            && (g.result.None? ==> o.meta.Some? && |o.sink| == |g.hashed| == o.meta.value.fileSize
                                   && u.hash(g.hashed) == o.meta.value.sha256)
  {
    RunKeepsInv(u, run, t);
  }

  /** After done no frame and no routine changes the file or the result. */
  lemma NothingAfterDone(u: Setup, run: seq<Receiver>, i: nat, j: nat)
    requires IsRun(u, run) && i <= j < |run| && run[i].gate.doneCloses == 1
    ensures run[j].out.sink == run[i].out.sink && run[j].gate.result == run[i].gate.result
    ensures run[j].gate.removed == run[i].gate.removed && run[j].gate.doneCloses == 1
  {
    RunSettles(u, run, i, j);
  }

  /**
   * A close of the control channel, which looks at done and not at TRANSFER_COMPLETE, can still decide
   * the result exactly while nobody holds the gate: if it is free the close's fail may enter at once,
   * and if it is taken no fail enters ever again.
   */
  lemma CloseDecidesWhileFree(u: Setup, run: seq<Receiver>, i: nat, j: nat, e: CoreError)
    requires IsRun(u, run) && i <= j < |run|
    ensures run[i].gate.at.Free? <==> CanCall(DoCall(run[i], ControlClosed), EnterFail(ClosedEarly))
    ensures !run[i].gate.at.Free? ==> !CanCall(run[j], EnterFail(e))
  {
    RunKeepsInv(u, run, i);
    RunSettles(u, run, i, j);
  }

  // ---- Reading back while frames still arrive ----

  /** What verifyIntegrity has read is what the file holds, as long as nothing has written since. */
  ghost predicate ReadBack(s: Receiver) {
    s.gate.result.None? && !s.gate.at.Free? ==> |s.gate.hashed| <= |s.out.sink| && s.gate.hashed == s.out.sink[..|s.gate.hashed|]
  }

  lemma {:induction false} QuietReadBack(u: Setup, run: seq<Receiver>, i: nat, j: nat)
    requires IsRun(u, run) && i <= j < |run| && run[i].gate.at == Held(VerifySweep)
    requires forall k :: i <= k <= j ==> run[k].out.sink == run[i].out.sink
    ensures ReadBack(run[j])
    decreases j
  {
    hide Do, Can, Inv;
    if i < j {
      QuietReadBack(u, run, i, j - 1);
      RunKeepsInv(u, run, j - 1);
      RunSettles(u, run, i, j - 1);
      assert Next(u, run[j - 1], run[j - 1 + 1]);
      var e :| Can(run[j - 1], e) && run[j] == Do(u, run[j - 1], e);
      StepReadsBack(u, run[j - 1], e);
    } else {
      RunKeepsInv(u, run, i);
      StartReadBack(u, run[i]);
    }
  }

  lemma StartReadBack(u: Setup, s: Receiver)
    requires Inv(u, s) && s.gate.at == Held(VerifySweep)
    ensures ReadBack(s)
  {
  }

  lemma StepReadsBack(u: Setup, s: Receiver, e: Action)
    requires Inv(u, s) && Can(s, e) && ReadBack(s) && !s.gate.at.Free? && Do(u, s, e).out.sink == s.out.sink
    ensures ReadBack(Do(u, s, e))
  {
    hide Inv, Do, Can;
    if e.Hold? {
      HoldFrame(u, s, e.hold);
      BlockReadsBack(u, s.out, s.gate, e.hold);
    } else {
      GateUntouched(u, s, e);
    }
  }

  lemma HoldFrame(u: Setup, s: Receiver, a: HoldAct)
    requires Can(s, Hold(a))
    ensures CanHold(s.out, s.gate, a)
    ensures Do(u, s, Hold(a)).gate == HoldStep(u, s.out, s.gate, a) && Do(u, s, Hold(a)).out == s.out
  {
    hide HoldStep;
  }

  lemma BlockReadsBack(u: Setup, o: Output, g: DoneGate, a: HoldAct)
    requires CanHold(o, g, a) && (g.result.None? ==> |g.hashed| <= |o.sink| && g.hashed == o.sink[..|g.hashed|])
    ensures var g' := HoldStep(u, o, g, a);
            g'.result.None? ==> |g'.hashed| <= |o.sink| && g'.hashed == o.sink[..|g'.hashed|]
  {
    if a.ReadBlock? && a.ok && |g.hashed| < |o.sink| {
      var n := |g.hashed|;
      var m := Min(|o.sink|, n + 65_536);
      assert o.sink[..m] == o.sink[..n] + o.sink[n..m];
    }
  }

  /** Only its holder changes a taken gate. */
  lemma GateUntouched(u: Setup, s: Receiver, e: Action)
    requires Can(s, e) && !e.Hold? && !s.gate.at.Free?
    ensures Do(u, s, e).gate == s.gate
  {
    hide TakeControl, DoNegotiate, CanNegotiate, NegStep, DoPeer, CanPeer, DoCall, CanCall;
    match e {
      case Control(f, ok) => ControlFrame(s, f, ok);
      case Negotiate(i, a) => NegotiateFrame(s, i, a);
      case Peer(i, a) => PeerFrame(u, s, i, a);
      case Call(a) => CallFrame(s, a);
    }
  }

  /** If nothing was written while a verification ran, a nil result means the file has the announced digest. */
  lemma QuietVerificationIsExact(u: Setup, run: seq<Receiver>, i: nat, j: nat)
    requires IsRun(u, run) && i <= j < |run| && run[i].gate.at == Held(VerifySweep)
    requires forall k :: i <= k <= j ==> run[k].out.sink == run[i].out.sink
    requires run[j].gate.doneCloses == 1 && run[j].gate.result.None?
    ensures run[j].out.meta.Some? && u.hash(run[j].out.sink) == run[j].out.meta.value.sha256
  {
    QuietReadBack(u, run, i, j);
    KeptExactlyWhenNil(u, run, j);
    RunKeepsInv(u, run, j);
    assert run[j].out.sink[..|run[j].out.sink|] == run[j].out.sink;
  }

  // ---- Sessions ----

  /** No interleaving closes a peer's session twice. */
  lemma SessionClosedOnce(u: Setup, run: seq<Receiver>, t: nat, id: byte)
    requires IsRun(u, run) && t < |run| && id in run[t].negs
    ensures run[t].negs[id].closes <= 1
  {
    RunKeepsInv(u, run, t);
    assert NegOk(run[t].gate, run[t].negs[id]);
  }

  /** Every peer that was in the map when cleanup swept it is closed by the time done closes. */
  lemma SweptPeersAreClosed(u: Setup, run: seq<Receiver>, i: nat, t: nat, id: byte)
    requires IsRun(u, run) && i <= t < |run| && run[t].gate.doneCloses == 1
    requires id in run[i].negs && InMap(run[i].negs[id].phase) && run[i].gate.cleanups == 0
    ensures id in run[t].negs && run[t].negs[id].closes == 1
  {
    RunKeepsInv(u, run, i);
    assert NegOk(run[i].gate, run[i].negs[id]);
    NegHistory(u, run, i, t, id);
    RunKeepsInv(u, run, t);
    assert NegOk(run[t].gate, run[t].negs[id]);
  }

  /** A negotiator never forgets its offer or when it joined, and never leaves the map. */
  lemma {:induction false} NegHistory(u: Setup, run: seq<Receiver>, i: nat, j: nat, id: byte)
    requires IsRun(u, run) && i <= j < |run| && id in run[i].negs
    ensures id in run[j].negs && run[j].negs[id].offer == run[i].negs[id].offer
    ensures InMap(run[i].negs[id].phase) ==>
              InMap(run[j].negs[id].phase) && run[j].negs[id].joinedAt == run[i].negs[id].joinedAt
    decreases j
  {
    hide Do, Can;
    if i < j {
      NegHistory(u, run, i, j - 1, id);
      assert Next(u, run[j - 1], run[j - 1 + 1]);
      var e :| Can(run[j - 1], e) && run[j] == Do(u, run[j - 1], e);
      NegAfterStep(u, run[j - 1], e, id);
    }
  }

  lemma NegAfterStep(u: Setup, s: Receiver, e: Action, id: byte)
    requires Can(s, e) && id in s.negs
    ensures var d := Do(u, s, e);
            && id in d.negs && d.negs[id].offer == s.negs[id].offer
            && (InMap(s.negs[id].phase) ==> InMap(d.negs[id].phase) && d.negs[id].joinedAt == s.negs[id].joinedAt)
            && (InMap(d.negs[id].phase) && !InMap(s.negs[id].phase) ==> d.negs[id].joinedAt == Now(s.gate))
  {
    hide TakeControl, DoNegotiate, DoPeer, CanPeer, DoCall, CanCall, HoldStep, CanHold;
    match e {
      case Control(f, ok) => ControlFrame(s, f, ok);
      case Negotiate(i, a) => NegotiateFrame(s, i, a);
      case Peer(i, a) => PeerFrame(u, s, i, a);
      case Call(a) => CallFrame(s, a);
      case Hold(a) =>
    }
  }

  /** Every return of the negotiator without success leaves its own session closed, if it ever had one. */
  lemma FailedExitCloses(u: Setup, run: seq<Receiver>, t: nat, id: byte)
    requires IsRun(u, run) && t < |run| && id in run[t].negs && run[t].negs[id].phase.Left?
    ensures run[t].negs[id].closes == 1
  {
    RunKeepsInv(u, run, t);
    assert NegOk(run[t].gate, run[t].negs[id]);
  }

  predicate Exited(p: Phase) { p.Answered? || p.Left? }

  /**
   * After done the sessions left open are exactly those of negotiators that succeeded after joining the
   * map between the sweep and the close of done; their check of done came before that close, too.
   */
  lemma OpenSessionsExactly(u: Setup, run: seq<Receiver>, t: nat, id: byte)
    requires IsRun(u, run) && t < |run| && run[t].gate.doneCloses == 1
    requires id in run[t].negs && Exited(run[t].negs[id].phase)
    ensures var n := run[t].negs[id];
            && (n.closes == 0 <==> n.phase.Answered? && n.joinedAt.AfterSweep?)
            && (n.closes == 0 ==> n.checkedAt.AfterSweep?)
  {
    RunKeepsInv(u, run, t);
    assert NegOk(run[t].gate, run[t].negs[id]);
  }

  /** The moment m is when the gate was like this: before the sweep, after it, or after the close of done. */
  predicate IsAt(m: Moment, g: DoneGate) {
    && (m.BeforeSweep? <==> g.cleanups == 0 && g.doneCloses == 0)
    && (m.AfterSweep? <==> g.cleanups > 0 && g.doneCloses == 0)
    && (m.AfterDone? <==> g.doneCloses > 0)
  }

  /** joinedAt is what it says: the moment of the step that put the peer into the map. */
  lemma {:induction false} JoinedAtIsTrue(u: Setup, run: seq<Receiver>, t: nat, id: byte) returns (k: nat)
    requires IsRun(u, run) && t < |run| && id in run[t].negs && InMap(run[t].negs[id].phase)
    ensures k < t && id in run[k].negs && !InMap(run[k].negs[id].phase)
    ensures id in run[k + 1].negs && InMap(run[k + 1].negs[id].phase)
    ensures IsAt(run[t].negs[id].joinedAt, run[k].gate)
    decreases t
  {
    hide Do, Can;
    if t > 0 {
      assert Next(u, run[t - 1], run[t - 1 + 1]);
      var e :| Can(run[t - 1], e) && run[t] == Do(u, run[t - 1], e);
      NewIsOutside(u, run[t - 1], e, id);
      NegAfterStep(u, run[t - 1], e, id);
      if InMap(run[t - 1].negs[id].phase) {
        k := JoinedAtIsTrue(u, run, t - 1, id);
      } else {
        k := t - 1;
      }
    }
  }

  /** A negotiator that has been let past its check of done. */
  predicate PastCheck(p: Phase) { p.Cleared? || p.Answered? }

  /** checkedAt is what it says: the moment at which the negotiator looked at done and found it open. */
  lemma {:induction false} CheckedAtIsTrue(u: Setup, run: seq<Receiver>, t: nat, id: byte) returns (k: nat)
    requires IsRun(u, run) && t < |run| && id in run[t].negs && PastCheck(run[t].negs[id].phase)
    ensures k < t && id in run[k].negs && run[k].negs[id].phase.Accepted?
    ensures id in run[k + 1].negs && run[k + 1].negs[id].phase.Cleared?
    ensures IsAt(run[t].negs[id].checkedAt, run[k].gate) && run[k].gate.doneCloses == 0
    decreases t
  {
    hide Do, Can;
    if t > 0 {
      assert Next(u, run[t - 1], run[t - 1 + 1]);
      var e :| Can(run[t - 1], e) && run[t] == Do(u, run[t - 1], e);
      NewIsOutside(u, run[t - 1], e, id);
      CheckAfterStep(u, run[t - 1], e, id);
      if PastCheck(run[t - 1].negs[id].phase) {
        k := CheckedAtIsTrue(u, run, t - 1, id);
      } else {
        k := t - 1;
      }
    }
  }

  lemma CheckAfterStep(u: Setup, s: Receiver, e: Action, id: byte)
    requires Can(s, e) && id in s.negs && id in Do(u, s, e).negs && PastCheck(Do(u, s, e).negs[id].phase)
    ensures var x, x' := s.negs[id], Do(u, s, e).negs[id];
            && (PastCheck(x.phase) ==> x'.checkedAt == x.checkedAt)
            && (!PastCheck(x.phase) ==>
                  x.phase.Accepted? && x'.phase.Cleared? && x'.checkedAt == Now(s.gate) && s.gate.doneCloses == 0)
  {
    hide TakeControl, DoNegotiate, DoPeer, CanPeer, DoCall, CanCall, HoldStep, CanHold;
    match e {
      case Control(f, ok) => ControlFrame(s, f, ok);
      case Negotiate(i, a) => NegotiateFrame(s, i, a);
      case Peer(i, a) => PeerFrame(u, s, i, a);
      case Call(a) => CallFrame(s, a);
      case Hold(a) =>
    }
  }

  lemma NewIsOutside(u: Setup, s: Receiver, e: Action, id: byte)
    requires Can(s, e) && id in Do(u, s, e).negs && InMap(Do(u, s, e).negs[id].phase)
    ensures id in s.negs
  {
    hide TakeControl, DoNegotiate, DoPeer, CanPeer, DoCall, CanCall, HoldStep, CanHold;
    match e {
      case Control(f, ok) => ControlFrame(s, f, ok);
      case Negotiate(i, a) => NegotiateFrame(s, i, a);
      case Peer(i, a) => PeerFrame(u, s, i, a);
      case Call(a) => CallFrame(s, a);
      case Hold(a) =>
    }
  }
}
