/** What every step of the multi-connection receiver keeps, whoever sends and however the routines interleave. */
module ReceiverProofs {
  import opened Bytes
  import opened Frames
  import opened Coders
  import opened CoreSpec
  import opened MultiReceiver

  /** The gate's holder is past the file and has only done left to close. */
  predicate Over(p: Place) { p.Finished? || p == Held(Announcing) || p == Held(Releasing) }

  predicate Sweeping(p: Place) { p == Held(FailSweep) || p == Held(VerifySweep) }

  predicate Verifying(p: Place) { p == Held(VerifySweep) || p == Held(Syncing) || p == Held(Hashing) || p == Held(Keeping) }

  /** The gate is held by, or was left by, a verification that found nothing wrong so far. */
  predicate Clean(g: DoneGate) { Verifying(g.at) || (Over(g.at) && g.result.None?) }

  /** Where the gate is decides how often cleanup and close(done) ran and what became of result and file. */
  predicate GateOk(u: Setup, meta: Option<Metadata>, g: DoneGate) {
    && g.doneCloses == (if g.at.Finished? || g.at == Held(Releasing) then 1 else 0)
    && g.cleanups == (if g.at.Free? || Sweeping(g.at) then 0 else 1)
    && (g.at.Free? || Verifying(g.at) ==> g.result.None?)
    && (g.at == Held(FailSweep) || g.at == Held(Discarding) || g.at == Held(Removing) ==> g.result.Some?)
    && (g.fileOpen <==> !Over(g.at) && g.at != Held(Removing))
    && (g.removed <==> Over(g.at) && g.result.Some? && g.hasPath)
    && (g.at.Free? || Sweeping(g.at) || g.at == Held(Syncing) ==> g.hashed == [])
    && (g.at == Held(Keeping) || (Over(g.at) && g.result.None?) ==>
          meta.Some? && |g.hashed| >= meta.value.fileSize && u.hash(g.hashed) == meta.value.sha256)
  }

  /** After a successful METADATA the file has the announced size; only then is anything verified. */
  predicate SizeOk(s: Receiver) {
    && (s.out.sized ==>
          s.out.meta.Some? && |s.out.sink| == s.out.meta.value.fileSize < TWO63 && |s.gate.hashed| <= |s.out.sink|)
    && (s.routing && s.out.meta.Some? ==> s.out.sized)
    && (s.callers.verifiers != [] || Clean(s.gate) || s.gate.hashed != [] ==> s.out.sized)
  }

  predicate TurnOk(meta: Option<Metadata>, t: Turn) {
    t.Checked? ==> meta.Some? && t.offset + |t.payload| <= meta.value.fileSize
  }

  ghost predicate TurnsOk(s: Receiver) { forall id :: id in s.handlers ==> TurnOk(s.out.meta, s.handlers[id].turn) }

  predicate Reached(g: DoneGate, m: Moment) {
    (m.AfterSweep? ==> g.cleanups > 0) && (m.AfterDone? ==> g.doneCloses > 0)
  }

  predicate NoLater(a: Moment, b: Moment) { a.BeforeSweep? || b.AfterDone? || (a.AfterSweep? && b.AfterSweep?) }

  /** Who has closed a peer's session, by where its negotiator is and when it joined the map. */
  predicate NegOk(g: DoneGate, n: Neg) {
    && n.closes <= 1
    && (InMap(n.phase) ==> Reached(g, n.joinedAt))
    && (n.closes == 1 <==> n.phase.Left? || (InMap(n.phase) && n.joinedAt.BeforeSweep? && g.cleanups > 0))
    && (n.phase.Cleared? || n.phase.Answered? ==>
          Reached(g, n.checkedAt) && NoLater(n.joinedAt, n.checkedAt) && !n.checkedAt.AfterDone?)
  }

  ghost predicate NegsOk(s: Receiver) { forall id :: id in s.negs ==> NegOk(s.gate, s.negs[id]) }

  /** Every answer on the control channel was sent by the one negotiator of its id, which sent no other. */
  ghost predicate AnswersOk(s: Receiver) {
    forall k :: 0 <= k < |s.answers| ==>
      && s.answers[k].Answer? && s.answers[k].id in s.negs
      && s.negs[s.answers[k].id].phase == Answered(s.answers[k].sdp, k)
  }

  /** Data handlers exist only for peers that are in the map. */
  ghost predicate HandlersOk(s: Receiver) {
    forall id :: id in s.handlers ==> id in s.negs && InMap(s.negs[id].phase) && !s.negs[id].phase.Joined?
  }

  ghost predicate Inv(u: Setup, s: Receiver) {
    GateOk(u, s.out.meta, s.gate) && SizeOk(s) && TurnsOk(s) && NegsOk(s) && AnswersOk(s) && HandlersOk(s)
  }

  lemma FreshInv(u: Setup, contents: bytes, hasPath: bool)
    ensures Inv(u, FreshReceiver(contents, hasPath))
  {
  }

  // ---- One lemma a kind of action ----

  lemma ControlKeeps(u: Setup, s: Receiver, f: Frame, ok: bool)
    requires Inv(u, s) && s.routing
    ensures Inv(u, TakeControl(s, f, ok))
  {
    hide GateOk, SizeOk, TurnsOk, NegsOk, AnswersOk, HandlersOk, TakeControl;
    var d := TakeControl(s, f, ok);
    ControlSize(s, f, ok);
    ControlFrame(s, f, ok);
    MetaGrows(u, s.out.meta, d.out.meta, s.gate);
    TurnsSame(s, d);
    ControlPeers(s, d);
  }

  lemma MetadataStepOk(o: Output, fileOpen: bool, m: Metadata, ok: bool)
    ensures var (o', err) := MetadataStep(o, fileOpen, m, ok);
            && (o.meta.Some? ==> o' == o && err.Some?)
            && (o'.sized <==> o.sized || err.None?)
            && (err.None? ==> o'.meta == Some(m) && |o'.sink| == m.fileSize < TWO63)
            && (err.Some? || !fileOpen ==> o'.sink == o.sink)
  {
    hide Resize;
  }

  lemma ControlSize(s: Receiver, f: Frame, ok: bool)
    requires SizeOk(s) && s.routing
    ensures SizeOk(TakeControl(s, f, ok))
  {
    hide MetadataStep;
    if f.Meta? {
      MetadataStepOk(s.out, s.gate.fileOpen, f.meta, ok);
      assert TakeControl(s, f, ok).out == MetadataStep(s.out, s.gate.fileOpen, f.meta, ok).0;
    }
  }

  /** A new peer's negotiator starts outside the map, with its session open. */
  predicate IsNew(n: Neg) { n.phase.Building? && n.closes == 0 }

  /** d differs from s by METADATA at most, and by new negotiators. */
  ghost predicate PeersGrow(s: Receiver, d: Receiver) {
    && d.gate == s.gate && d.handlers == s.handlers && d.answers == s.answers
    && (s.out.meta.Some? ==> d.out.meta == s.out.meta)
    && (forall id :: id in s.negs ==> id in d.negs && d.negs[id] == s.negs[id])
    && (forall id :: id in d.negs && id !in s.negs ==> IsNew(d.negs[id]))
  }

  lemma ControlFrame(s: Receiver, f: Frame, ok: bool)
    ensures PeersGrow(s, TakeControl(s, f, ok))
  {
    hide TakeMetadata, TakeOffer, TakeComplete;
    match f {
      case Meta(m) => MetadataFrame(s, m, ok);
      case Offer(id, sdp) => OfferFrame(s, id, sdp);
      case Complete => CompleteFrame(s);
      case _ =>
    }
  }

  lemma MetadataFrame(s: Receiver, m: Metadata, ok: bool)
    ensures PeersGrow(s, TakeMetadata(s, m, ok))
  {
    hide MetadataStep;
    MetadataStepOk(s.out, s.gate.fileOpen, m, ok);
  }

  lemma OfferFrame(s: Receiver, id: byte, sdp: bytes)
    ensures PeersGrow(s, TakeOffer(s, id, sdp))
  {
  }

  lemma CompleteFrame(s: Receiver)
    ensures PeersGrow(s, TakeComplete(s))
  {
  }

  lemma ControlPeers(s: Receiver, d: Receiver)
    requires NegsOk(s) && AnswersOk(s) && HandlersOk(s) && PeersGrow(s, d)
    ensures NegsOk(d) && AnswersOk(d) && HandlersOk(d)
  {
  }

  lemma TurnsSame(s: Receiver, d: Receiver)
    requires TurnsOk(s) && (s.out.meta.Some? ==> d.out.meta == s.out.meta)
    requires d.handlers.Keys == s.handlers.Keys
             && forall id :: id in s.handlers ==> d.handlers[id].turn == s.handlers[id].turn
    ensures TurnsOk(d)
  {
    forall id | id in d.handlers ensures TurnOk(d.out.meta, d.handlers[id].turn) {
      assert id in s.handlers.Keys;
      assert TurnOk(s.out.meta, s.handlers[id].turn);
    }
  }

  lemma MetaGrows(u: Setup, m: Option<Metadata>, m': Option<Metadata>, g: DoneGate)
    requires GateOk(u, m, g) && (m.Some? ==> m' == m)
    ensures GateOk(u, m', g)
  {
  }

  lemma NegStepOk(g: DoneGate, n: Neg, a: NegAct, sent: nat)
    requires NegOk(g, n) && CanNegotiate(g, n, a) && (g.doneCloses > 0 ==> g.cleanups > 0)
    ensures NegOk(g, NegStep(g, n, a, sent))
  {
  }

  lemma NegotiateKeeps(u: Setup, s: Receiver, id: byte, a: NegAct)
    requires Inv(u, s) && id in s.negs && CanNegotiate(s.gate, s.negs[id], a)
    ensures Inv(u, DoNegotiate(s, id, a))
  {
    assert s.gate.doneCloses > 0 ==> s.gate.cleanups > 0;
    assert NegOk(s.gate, s.negs[id]);
    hide GateOk, TurnsOk, NegStep, AnswersOk, HandlersOk, NegOk, DoNegotiate;
    NegotiateFrame(s, id, a);
    NegStepOk(s.gate, s.negs[id], a, |s.answers|);
    NegotiateAnswers(s, id, a);
    TurnsSame(s, DoNegotiate(s, id, a));
  }

  lemma NegotiateFrame(s: Receiver, id: byte, a: NegAct)
    requires id in s.negs && CanNegotiate(s.gate, s.negs[id], a)
    ensures var d := DoNegotiate(s, id, a);
            && d.negs == s.negs[id := NegStep(s.gate, s.negs[id], a, |s.answers|)]
            && d.answers == (if a == SendAnswer(true) then s.answers + [Answer(id, s.negs[id].phase.answer)] else s.answers)
            && d.out == s.out && d.gate == s.gate && d.handlers == s.handlers && d.routing == s.routing
            && d.callers.verifiers == s.callers.verifiers
  {
    hide NegStep;
  }

  lemma NegotiateAnswers(s: Receiver, id: byte, a: NegAct)
    requires id in s.negs && CanNegotiate(s.gate, s.negs[id], a) && AnswersOk(s) && HandlersOk(s)
    ensures AnswersOk(DoNegotiate(s, id, a)) && HandlersOk(DoNegotiate(s, id, a))
  {
    NegotiateFrame(s, id, a);
    hide DoNegotiate;
    var d := DoNegotiate(s, id, a);
    forall k | 0 <= k < |d.answers|
      ensures d.answers[k].Answer? && d.answers[k].id in d.negs
      ensures d.negs[d.answers[k].id].phase == Answered(d.answers[k].sdp, k)
    {
      if k < |s.answers| {
        assert s.negs[s.answers[k].id].phase == Answered(s.answers[k].sdp, k);
        assert d.answers[k] == s.answers[k];
      }
    }
  }

  lemma PeerKeeps(u: Setup, s: Receiver, id: byte, a: DataAct)
    requires Inv(u, s) && CanPeer(s, id, a)
    ensures Inv(u, DoPeer(u, s, id, a))
  {
    PeerTurns(u, s, id, a);
    PeerMaps(u, s, id, a);
    hide GateOk, NegsOk, DataStep, AnswersOk, TurnsOk, HandlersOk;
    if !a.Install? { PeerTurn(u, s, id, a); }
  }

  lemma PeerMaps(u: Setup, s: Receiver, id: byte, a: DataAct)
    requires NegsOk(s) && AnswersOk(s) && HandlersOk(s) && CanPeer(s, id, a)
    ensures var d := DoPeer(u, s, id, a); NegsOk(d) && AnswersOk(d) && HandlersOk(d)
  {
    hide NegOk, DataStep;
    var d := DoPeer(u, s, id, a);
    assert d.negs == s.negs && d.answers == s.answers && d.gate == s.gate;
  }

  /** An action of one data peer touches its own handler, the output, and who calls fail. */
  lemma PeerFrame(u: Setup, s: Receiver, id: byte, a: DataAct)
    requires CanPeer(s, id, a)
    ensures var d := DoPeer(u, s, id, a);
            && d.negs == s.negs && d.answers == s.answers && d.gate == s.gate && d.routing == s.routing
            && d.callers.verifiers == s.callers.verifiers
            && (forall k :: k != id ==> (k in d.handlers <==> k in s.handlers)
                                        && (k in s.handlers ==> d.handlers[k] == s.handlers[k]))
  {
    hide DataStep, CanTurn, NeedsDecoder, InMap, Report;
    if a.Install? {
      ReportFrame(s, DecoderFailed);
    } else {
      var (turn, out, err) := DataStep(u, s.gate, s.out, s.handlers[id], a);
      if err.Some? {
        ReportFrame(s.(handlers := s.handlers[id := s.handlers[id].(turn := turn)], out := out), err.value);
      }
    }
  }

  lemma ReportFrame(s: Receiver, e: CoreError)
    ensures var d := Report(s, e);
            d == s.(callers := d.callers, protocolError := d.protocolError) && d.callers.verifiers == s.callers.verifiers
  {
  }

  lemma PeerTurn(u: Setup, s: Receiver, id: byte, a: DataAct)
    requires TurnsOk(s) && SizeOk(s) && id in s.handlers && CanTurn(s.handlers[id].turn, a)
    ensures var (t, o, _) := DataStep(u, s.gate, s.out, s.handlers[id], a);
            TurnOk(s.out.meta, t) && o.meta == s.out.meta && o.sized == s.out.sized
            && (o.sized ==> |o.sink| == |s.out.sink|)
  {
    hide DataStep;
    assert TurnOk(s.out.meta, s.handlers[id].turn);
    DataStepOk(u, s.gate, s.out, s.handlers[id], a);
  }

  lemma PeerTurns(u: Setup, s: Receiver, id: byte, a: DataAct)
    requires TurnsOk(s) && SizeOk(s) && CanPeer(s, id, a)
    ensures TurnsOk(DoPeer(u, s, id, a))
  {
    hide DataStep, SizeOk;
    var d := DoPeer(u, s, id, a);
    if !a.Install? { PeerTurn(u, s, id, a); }
    forall i | i in d.handlers ensures TurnOk(d.out.meta, d.handlers[i].turn) {
      if i in s.handlers && i != id { assert TurnOk(s.out.meta, s.handlers[i].turn); }
    }
  }

  /** A data peer's action leaves METADATA and the size of a sized file alone. */
  lemma DataStepOk(u: Setup, g: DoneGate, o: Output, h: Handler, a: DataAct)
    requires CanTurn(h.turn, a) && TurnOk(o.meta, h.turn)
    requires o.sized ==> o.meta.Some? && |o.sink| == o.meta.value.fileSize
    ensures var (t, o', _) := DataStep(u, g, o, h, a);
            TurnOk(o.meta, t) && o'.meta == o.meta && o'.sized == o.sized && (o.sized ==> |o'.sink| == |o.sink|)
  {
    hide PutAt, InBounds;
    if a.Write? {
      var at, p := h.turn.offset, h.turn.payload;
      if o.sized {
        PutAtFits(o.sink, at, p);
        if a.writing.Failed? && a.writing.prefix < |p| { PutAtFits(o.sink, at, p[..a.writing.prefix]); }
      }
    }
    if a.Deliver? && a.frame.Data? { ExamineOk(u, o, h.decoder, a.frame.offset, a.frame.payload); }
  }

  lemma ExamineOk(u: Setup, o: Output, decoder: bool, offset: u64, payload: bytes)
    ensures var r := Examine(u, o, decoder, offset, payload);
            r.Ok? ==> o.meta.Some? && offset + |r.value| <= o.meta.value.fileSize
  {
    var r := Examine(u, o, decoder, offset, payload);
    if r.Ok? { BoundsTestIsExact(offset, |r.value|, o.meta.value.fileSize); }
  }

  lemma PutAtFits(s: bytes, at: nat, p: bytes)
    requires at + |p| <= |s|
    ensures |PutAt(s, at, p)| == |s| && PutAt(s, at, p) == Overwrite(s, at, p)
  {
    assert s[..|s|] == s;
  }

  lemma CallKeeps(u: Setup, s: Receiver, a: CallAct)
    requires Inv(u, s) && CanCall(s, a)
    ensures Inv(u, DoCall(s, a))
  {
    hide TurnsOk, NegsOk, AnswersOk, HandlersOk;
    CallFrame(s, a);
    PeersSame(s, DoCall(s, a));
  }

  /** A call before the gate changes who waits, and the gate only when it takes it. */
  ghost predicate CallOnly(s: Receiver, d: Receiver) {
    && d.negs == s.negs && d.handlers == s.handlers && d.answers == s.answers && d.out == s.out
    && (d.routing ==> s.routing)
    && d.gate.cleanups == s.gate.cleanups && d.gate.doneCloses == s.gate.doneCloses
    && (!s.gate.at.Free? ==> d.gate == s.gate)
  }

  lemma CallFrame(s: Receiver, a: CallAct)
    requires CanCall(s, a)
    ensures CallOnly(s, DoCall(s, a))
  {
    hide DoVerify, CanVerify;
    if a.Verify? { VerifyFrame(s, a.k, a.step); }
  }

  lemma VerifyFrame(s: Receiver, k: nat, a: VerifyAct)
    requires CanVerify(s, k, a)
    ensures CallOnly(s, DoVerify(s, k, a))
  {
    hide VerifierNext;
  }

  lemma PeersSame(s: Receiver, d: Receiver)
    requires TurnsOk(s) && NegsOk(s) && AnswersOk(s) && HandlersOk(s)
    requires d.negs == s.negs && d.handlers == s.handlers && d.answers == s.answers && d.out == s.out
    requires d.gate.cleanups == s.gate.cleanups && d.gate.doneCloses >= s.gate.doneCloses
    ensures TurnsOk(d) && NegsOk(d) && AnswersOk(d) && HandlersOk(d)
  {
    hide NegOk, TurnOk;
    forall id | id in d.negs ensures NegOk(d.gate, d.negs[id]) {
      assert NegOk(s.gate, s.negs[id]);
      NegSame(s.gate, d.gate, d.negs[id]);
    }
  }

  lemma NegSame(g: DoneGate, g': DoneGate, n: Neg)
    requires NegOk(g, n) && g'.cleanups == g.cleanups && g'.doneCloses >= g.doneCloses
    ensures NegOk(g', n)
  {
  }

  lemma HoldKeeps(u: Setup, s: Receiver, a: HoldAct)
    requires Inv(u, s) && CanHold(s.out, s.gate, a)
    ensures Inv(u, DoHold(u, s, a))
  {
    HoldStepOk(u, s.out, s.gate, a);
    hide TurnsOk, NegsOk, AnswersOk, HandlersOk, HoldStep, GateOk;
    if a.Sweep? { SweepPeers(u, s); } else { PeersSame(s, DoHold(u, s, a)); }
  }

  lemma SweepPeers(u: Setup, s: Receiver)
    requires Inv(u, s) && CanHold(s.out, s.gate, Sweep)
    ensures var d := DoHold(u, s, Sweep); TurnsOk(d) && NegsOk(d) && AnswersOk(d) && HandlersOk(d)
  {
    var d := DoHold(u, s, Sweep);
    assert s.gate.cleanups == 0 && s.gate.doneCloses == 0 && d.gate.cleanups == 1 && d.gate.doneCloses == 0;
    hide GateOk, SizeOk, NegOk, TurnOk;
    forall id | id in d.negs ensures NegOk(d.gate, d.negs[id]) {
      assert NegOk(s.gate, s.negs[id]);
      Swept(s.gate, d.gate, s.negs[id]);
    }
    forall id | id in d.handlers ensures TurnOk(d.out.meta, d.handlers[id].turn) {
      assert TurnOk(s.out.meta, s.handlers[id].turn);
    }
  }

  lemma HoldStepOk(u: Setup, o: Output, g: DoneGate, a: HoldAct)
    requires GateOk(u, o.meta, g) && CanHold(o, g, a)
    ensures var g' := HoldStep(u, o, g, a);
            && GateOk(u, o.meta, g')
            && g'.cleanups == (if a.Sweep? then 1 else g.cleanups) && g'.doneCloses >= g.doneCloses
            && (a.Sweep? ==> g.cleanups == 0)
            && (Clean(g') ==> Clean(g))
            && (g'.hashed == g.hashed || (Clean(g) && |g'.hashed| <= |o.sink|))
  {
  }

  /** The sweep closes exactly the sessions of the peers in the map. */
  lemma Swept(g: DoneGate, g': DoneGate, n: Neg)
    requires NegOk(g, n) && g.cleanups == 0 && g'.cleanups == 1 && g.doneCloses == 0
    ensures NegOk(g', if InMap(n.phase) then CloseSess(n) else n)
  {
  }

  // ---- Runs ----

  /** Every action of every routine keeps the invariant. */
  lemma StepKeepsInv(u: Setup, s: Receiver, e: Action)
    requires Inv(u, s) && Can(s, e)
    ensures Inv(u, Do(u, s, e))
  {
    hide Inv, TakeControl, DoNegotiate, DoPeer, DoCall, DoHold;
    match e {
      case Control(f, ok) => ControlKeeps(u, s, f, ok);
      case Negotiate(id, a) => NegotiateKeeps(u, s, id, a);
      case Peer(id, a) => PeerKeeps(u, s, id, a);
      case Call(a) => CallKeeps(u, s, a);
      case Hold(a) => HoldKeeps(u, s, a);
    }
  }

  lemma {:induction false} RunKeepsInv(u: Setup, run: seq<Receiver>, k: nat)
    requires IsRun(u, run) && k < |run|
    ensures Inv(u, run[k])
  {
    hide Inv, Do, Can;
    if k == 0 {
      var contents, hasPath :| run[0] == FreshReceiver(contents, hasPath);
      FreshInv(u, contents, hasPath);
    } else {
      RunKeepsInv(u, run, k - 1);
      assert Next(u, run[k - 1], run[k - 1 + 1]);
      var e :| Can(run[k - 1], e) && run[k] == Do(u, run[k - 1], e);
      StepKeepsInv(u, run[k - 1], e);
    }
  }
}
