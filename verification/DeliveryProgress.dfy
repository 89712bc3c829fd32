/** Until done is closed some routine can always take an ordinary step, whatever has been closed. */
module DeliveryProgress {
  import opened Bytes
  import opened Frames
  import opened Pieces
  import opened Coders
  import opened CoreSpec
  import opened Transfer
  import opened Coverage
  import opened TransferProofs
  import opened Delivery
  import H = Handshake
  import P = Pipeline
  import R = MultiReceiver
  import HP = HandshakeProofs
  import PP = PipelineProofs
  import PT = PipelineTheorems
  import RP = ReceiverProofs
  import T = Tallies
  import TR = TransferReceiving
  import TransferSteps
  import TT = TransferTheorems

  /** Some ordinary step can be taken. */
  ghost predicate CanGo(p: Plan, s: System)
    requires |p.file| < TWO64
  {
    exists e, s' :: Ordinary(e) && Step(p, s, e, s')
  }

  // ---- How a routine's step becomes one of the system ----

  lemma SendGo(p: Plan, s: System, x: H.Step)
    requires |p.file| < TWO64 && H.Can(s.snd, x) && OrdinarySend(x)
    ensures CanGo(p, s)
  {
    hide H.Can, H.Do, H.Sends, P.Step, R.Do, R.TakeControl, R.DoPeer;
    var s' := s.(snd := H.Do(p.n, s.snd, x, |s.ctrl|), ctrl := s.ctrl + H.Sends(Announced(p), s.snd, x));
    assert Step(p, s, Send(x), s') && Ordinary(Send(x));
  }

  lemma PumpGo(p: Plan, s: System)
    requires |p.file| < TWO64 && s.snd.stage.Running? && PT.CanMove(PipeConfig(p), s.pipe)
    ensures CanGo(p, s)
  {
    hide H.Can, H.Do, H.Sends, P.Step, R.Do, R.TakeControl, R.DoPeer;
    var x, pipe :| P.Step(PipeConfig(p), s.pipe, x, pipe) && !P.IsFault(x);
    var s' := s.(pipe := pipe, ctrl := s.ctrl + PipeSends(s.pipe, pipe, None));
    assert Step(p, s, Pump(x, None), s') && Ordinary(Pump(x, None));
  }

  lemma HearGo(p: Plan, s: System)
    requires |p.file| < TWO64 && s.heard < |s.rcv.answers| && s.rcv.answers[s.heard].Answer?
    ensures CanGo(p, s)
  {
    hide H.Can, H.Do, H.Sends, H.Hear, P.Step, R.Do, R.TakeControl, R.DoPeer;
    var s' := s.(snd := H.Hear(p.n, s.snd, s.rcv.answers[s.heard].id, s.rcv.answers[s.heard].sdp), heard := s.heard + 1);
    assert Step(p, s, Hear, s') && Ordinary(Hear);
  }

  lemma RouteGo(p: Plan, s: System)
    requires |p.file| < TWO64 && s.routed < |s.ctrl| && s.rcv.routing
    ensures CanGo(p, s)
  {
    hide H.Can, H.Do, H.Sends, P.Step, R.Do, R.TakeControl, R.DoPeer;
    var s' := s.(rcv := R.TakeControl(s.rcv, s.ctrl[s.routed], true), routed := s.routed + 1);
    assert Step(p, s, Route(true), s') && Ordinary(Route(true));
  }

  lemma InstallGo(p: Plan, s: System, i: byte)
    requires |p.file| < TWO64 && i < p.n <= 0x100 && i < |s.snd.accepted| && s.snd.accepted[i] != []
    requires R.CanPeer(s.rcv, i, R.Install(true))
    ensures CanGo(p, s)
  {
    hide H.Can, H.Do, H.Sends, P.Step, R.Do, R.TakeControl, R.DoPeer, R.CanPeer;
    var s' := s.(rcv := R.DoPeer(Setup(p), s.rcv, i, R.Install(true)));
    assert Step(p, s, Install(i, true), s') && Ordinary(Install(i, true));
  }

  lemma TakeGo(p: Plan, s: System, i: byte)
    requires |p.file| < TWO64 && i < p.n <= 0x100 && i < |s.taken| && i < |s.pipe.sent| && s.taken[i] < |s.pipe.sent[i]|
    requires i in s.rcv.handlers && s.rcv.handlers[i].turn.Idle?
    ensures CanGo(p, s)
  {
    var a := R.Deliver(s.pipe.sent[i][s.taken[i]]);
    assert R.CanPeer(s.rcv, i, a);
    hide H.Can, H.Do, H.Sends, P.Step, R.Do, R.TakeControl, R.DoPeer, R.CanPeer;
    var s' := s.(rcv := R.DoPeer(Setup(p), s.rcv, i, a), taken := s.taken[i := s.taken[i] + 1]);
    assert Step(p, s, Take(i), s') && Ordinary(Take(i));
  }

  lemma LocalGo(p: Plan, s: System, a: R.Action)
    requires |p.file| < TWO64 && OrdinaryLocal(a) && R.Can(s.rcv, a)
    ensures CanGo(p, s)
  {
    hide H.Can, H.Do, H.Sends, P.Step, R.Do, R.TakeControl, R.DoPeer, R.Can, R.DataStep;
    var s' := s.(rcv := R.Do(Setup(p), s.rcv, a),
                 wrote := if Writes(p, s.rcv, a) then Bump(s.wrote, a.id) else s.wrote,
                 counted := if a.Peer? && a.data.Count? then Bump(s.counted, a.id) else s.counted);
    assert Step(p, s, Local(a), s') && Ordinary(Local(a));
  }

  // ---- The gate is held ----

  lemma HolderGoes(p: Plan, s: System)
    requires Inv(p, s) && Smooth(p, s) && s.rcv.gate.at.Held?
    ensures CanGo(p, s)
  {
    hide PP.Inv, PeersOk, MetaOk, DataOk, CanGo, R.CanHold;
    if RP.Clean(s.rcv.gate) { MetaKnown(p, s); }
    var a := HolderNext(Setup(p), s.rcv.out, s.rcv.gate);
    hide RP.Inv, Smooth;
    LocalGo(p, s, R.Hold(a));
  }

  /** What the holder of the gate does next when nothing has failed. */
  lemma HolderNext(u: R.Setup, o: R.Output, g: R.DoneGate) returns (a: R.HoldAct)
    requires RP.GateOk(u, o.meta, g) && g.result.None? && g.at.Held? && (RP.Clean(g) ==> o.meta.Some?)
    ensures R.CanHold(o, g, a) && OrdinaryLocal(R.Hold(a))
  {
    match g.at.stage {
      case VerifySweep => a := R.Sweep;
      case Syncing => a := R.Sync(true);
      case Hashing => a := if |g.hashed| < o.meta.value.fileSize then R.ReadBlock(true) else R.Judge;
      case Keeping => a := R.Keep;
      case Announcing => a := R.Announce;
      case Releasing => a := R.Release;
    }
  }

  lemma MetaKnown(p: Plan, s: System)
    requires Inv(p, s) && Healthy(s) && RP.Clean(s.rcv.gate)
    ensures s.rcv.out.meta.Some? && s.rcv.out.allBytes
  {
    hide PP.Inv, RP.Inv, PeersOk, MetaOk, CursorsOk, SumOk, SinkOk;
  }

  // ---- The handshake ----

  /** A negotiation that has not answered goes on. */
  lemma NegotiationGoes(p: Plan, s: System, id: byte)
    requires |p.file| < TWO64 && Smooth(p, s) && id in s.rcv.negs && !s.rcv.negs[id].phase.Answered?
    ensures CanGo(p, s)
  {
    assert OnItsWay(s.rcv.negs[id].phase);
    hide Smooth, CanGo;
    match s.rcv.negs[id].phase {
      case Building => LocalGo(p, s, R.Negotiate(id, R.Build(true)));
      case Built => LocalGo(p, s, R.Negotiate(id, R.Join));
      case Joined => LocalGo(p, s, R.Negotiate(id, R.Accept([])));
      case Accepted(_) => LocalGo(p, s, R.Negotiate(id, R.Check(false)));
      case Cleared(_) => LocalGo(p, s, R.Negotiate(id, R.SendAnswer(true)));
    }
  }

  /** Somebody moves for a peer that is still waited for when all answers so far have been taken. */
  lemma WaitedForGoes(p: Plan, s: System, id: byte)
    requires |p.file| < TWO64 && Smooth(p, s) && PeersOk(p, s) && HP.Built(s.snd) && id < p.n
    requires !HP.AnsweredBy(s.rcv.answers, |s.rcv.answers|, id)
    ensures CanGo(p, s)
  {
    hide CanGo, HP.FlowOk, CompleteLinks, Signalled, SmoothPipe;
    match s.snd.offerers[id] {
      case Making => SendGo(p, s, H.Make(id, []));
      case Made(_) => SendGo(p, s, H.SendOffer(id, true));
      case Offered(_, pos) =>
        if pos >= s.routed {
          StillRouting(s);
          RouteGo(p, s);
        } else {
          assert id in s.rcv.negs;
          if s.rcv.negs[id].phase.Answered? {
            AnswerIsThere(s, id);
            assert false;
          } else {
            NegotiationGoes(p, s, id);
          }
        }
    }
  }

  /** The control loop runs until it has taken every frame. */
  lemma StillRouting(s: System)
    requires LoopsOk(s) && s.routed < |s.ctrl|
    ensures s.rcv.routing
  {
  }

  lemma AnswerIsThere(s: System, id: byte)
    requires AnswersSent(s.rcv) && id in s.rcv.negs && s.rcv.negs[id].phase.Answered?
    ensures HP.AnsweredBy(s.rcv.answers, |s.rcv.answers|, id)
  {
    var k := s.rcv.negs[id].phase.pos;
    assert s.rcv.answers[k] == Answer(id, s.rcv.negs[id].phase.answer);
  }

  /** A peer that is no longer waited for has accepted the answer of its negotiation. */
  lemma PeerAccepted(p: Plan, s: System, id: byte)
    requires |p.file| < TWO64 && PeersOk(p, s) && RP.AnswersOk(s.rcv) && SmoothSender(s.snd) && HP.Built(s.snd)
    requires id < p.n && id !in s.snd.waiting
    ensures id in s.rcv.negs && s.rcv.negs[id].phase.Answered? && id < |s.snd.accepted| && s.snd.accepted[id] != []
    ensures id < |s.snd.offerers| && s.snd.offerers[id].Offered?
  {
    hide HP.LogOk, HP.FlowOk, RP.AnswersOk;
    TT.AcceptedFrom(p, s, id);
  }

  lemma HandshakeGoes(p: Plan, s: System)
    requires Inv(p, s) && Smooth(p, s) && !s.snd.stage.Running?
    ensures CanGo(p, s)
  {
    hide CanGo, HP.LogOk, HP.NegsMatch, RP.Inv, PP.Inv, DataOk, MetaOk, AnswersSent, OffersRouted, CompleteLinks,
      Signalled;
    TT.PeersPart(p, s);
    match s.snd.stage {
      case Opening => SendGo(p, s, H.SendMetadata(true));
      case Building => SendGo(p, s, H.BuildPeers(true));
      case Collecting => CollectingGoes(p, s);
      case Joining => JoiningGoes(p, s);
      case Connecting(k) => ConnectingGoes(p, s, k);
    }
  }

  lemma CollectingGoes(p: Plan, s: System)
    requires |p.file| < TWO64 && p.n <= 0x100 && PeersOk(p, s) && Smooth(p, s) && s.snd.stage.Collecting?
    ensures CanGo(p, s)
  {
    hide CanGo, HP.LogOk, HP.NegsMatch, Smooth, HP.AnsweredBy;
    if s.snd.waiting == map[] {
      SendGo(p, s, H.LoopEnds);
    } else if s.snd.queue != [] {
      SendGo(p, s, H.TakeAnswer(true));
    } else if s.heard < |s.rcv.answers| {
      HearGo(p, s);
    } else {
      var id :| id in s.snd.waiting.Keys;
      WaitedForGoes(p, s, id);
    }
  }

  lemma JoiningGoes(p: Plan, s: System)
    requires |p.file| < TWO64 && p.n <= 0x100 && PeersOk(p, s) && RP.AnswersOk(s.rcv) && SmoothSender(s.snd)
             && s.snd.stage.Joining?
    ensures CanGo(p, s)
  {
    hide CanGo, HP.LogOk, HP.NegsMatch, RP.AnswersOk, SmoothSender, HP.QueueOk, HP.WaitingOk, HP.Distinct;
    forall i | 0 <= i < |s.snd.offerers| ensures s.snd.offerers[i].Offered? {
      var id: byte := i;
      PeerAccepted(p, s, id);
    }
    SendGo(p, s, H.OffersDone);
  }

  lemma ConnectingGoes(p: Plan, s: System, k: nat)
    requires |p.file| < TWO64 && p.n <= 0x100 && PeersOk(p, s) && RP.AnswersOk(s.rcv) && SmoothSender(s.snd)
    requires s.snd.stage == H.Connecting(k)
    ensures CanGo(p, s)
  {
    hide CanGo, HP.LogOk, HP.NegsMatch, RP.AnswersOk, SmoothSender, HP.QueueOk, HP.WaitingOk, HP.Distinct;
    if k < p.n && !s.snd.isOpen[k] {
      var id: byte := k;
      PeerAccepted(p, s, id);
      SendGo(p, s, H.ChannelOpens(k));
    } else {
      SendGo(p, s, H.SeeOpen);
    }
  }

  // ---- The data channels ----

  /** Peer i's channel has delivered everything that was sent on it. */
  ghost predicate Drained(s: System, i: byte)
    requires i < |s.taken| && i < |s.pipe.sent|
  {
    i in s.rcv.handlers && (s.rcv.handlers[i].turn.Stopped? || (s.rcv.handlers[i].turn.Idle? && s.taken[i] >= |s.pipe.sent[i]|))
  }

  lemma PeerGoes(p: Plan, s: System, id: byte)
    requires Inv(p, s) && Smooth(p, s) && s.snd.stage.Running? && id < p.n && !Drained(s, id)
    ensures CanGo(p, s)
  {
    hide CanGo, RP.Inv, PP.Inv, DataOk, MetaOk, HP.LogOk, HP.NegsMatch, HP.QueueOk, HP.WaitingOk, HP.Distinct;
    hide OffersRouted, CompleteLinks, Signalled, AnswersSent, SmoothPipe;
    if id !in s.rcv.handlers {
      TT.PeersPart(p, s);
      PeerAccepted(p, s, id);
      InstallGo(p, s, id);
    } else {
      hide PeersOk;
      match s.rcv.handlers[id].turn {
        case Idle => TakeGo(p, s, id);
        case Checked(_, _) => LocalGo(p, s, R.Peer(id, R.Write(Written)));
        case Wrote(_) => LocalGo(p, s, R.Peer(id, R.Count));
        case Counted(_) => LocalGo(p, s, R.Peer(id, R.Signal));
      }
    }
  }

  /** When the sender has completed, everything is on the wire. */
  lemma WireIsFull(c: P.Config, s: P.State)
    requires PP.Inv(c, s) && s.main.Completed?
    ensures PP.OnTheWire(c, s) == |c.file|
  {
    PT.InvTruthful(c, s);
    assert PP.BytesInPlay(c, s) == s.read && !s.prod.Ready? && s.queue == [];
    hide PP.Inv, PP.OnTheWire;
    T.TallyZero(s.workers, |s.workers|, PP.HoldLen());
  }

  lemma {:induction false} SumFull(sent: seq<seq<Frame>>, counts: seq<nat>, n: nat, size: nat)
    requires Fits(sent, counts) && n <= |sent| && forall i :: 0 <= i < n ==> counts[i] == |sent[i]|
    ensures SumTo(sent, counts, n, size) == T.TallyTo(sent, n, PP.LogLen(size))
  {
    if n > 0 {
      SumFull(sent, counts, n - 1, size);
    }
  }

  lemma AllDrained(p: Plan, s: System)
    requires Inv(p, s) && Smooth(p, s) && s.pipe.main.Completed? && forall i: byte :: i < p.n ==> Drained(s, i)
    ensures s.rcv.out.allBytes
  {
    hide RP.Inv, PP.Inv, PeersOk, MetaOk, SinkOk, FlagsOk, Blameless, SmoothSender, SmoothPipe, CompleteLinks,
      OffersRouted;
    AllTaken(p, s);
    var zero: byte := 0;
    assert Drained(s, zero);
    TR.HandlerMeans(p, s, zero);
    WireIsFull(PipeConfig(p), s.pipe);
    SumFull(s.pipe.sent, s.counted, p.n, |p.file|);
  }

  /** Every frame has been counted, and nobody is about to signal. */
  lemma AllTaken(p: Plan, s: System)
    requires Inv(p, s) && Healthy(s) && LoopsOk(s) && forall i: byte :: i < p.n ==> Drained(s, i)
    ensures forall i :: 0 <= i < p.n ==> s.counted[i] == |s.pipe.sent[i]|
    ensures forall id :: id in s.rcv.handlers ==> !s.rcv.handlers[id].turn.Counted?
  {
    hide RP.Inv, PP.Inv, PeersOk, MetaOk, DataOk;
    forall i | 0 <= i < p.n ensures s.counted[i] == |s.pipe.sent[i]| {
      var b: byte := i;
      assert Drained(s, b);
      TR.CursorAt(p, s, b);
    }
    forall id | id in s.rcv.handlers ensures !s.rcv.handlers[id].turn.Counted? {
      TR.HandlerMeans(p, s, id);
      assert Drained(s, id);
    }
  }

  lemma VerifierGoes(p: Plan, s: System)
    requires |p.file| < TWO64 && Smooth(p, s) && s.rcv.callers.verifiers != [] && s.rcv.out.allBytes
             && s.rcv.gate.at.Free?
    ensures CanGo(p, s)
  {
    var v := s.rcv.callers.verifiers[0];
    assert !v.Returned?;
    hide CanGo, Smooth;
    match v {
      case Started => LocalGo(p, s, R.Call(R.Verify(0, R.Start)));
      case Waiting => LocalGo(p, s, R.Call(R.Verify(0, R.Pass)));
      case Passed => LocalGo(p, s, R.Call(R.Verify(0, R.Compare)));
      case Entering => LocalGo(p, s, R.Call(R.Verify(0, R.Enter)));
    }
  }

  lemma RunningGoes(p: Plan, s: System)
    requires Inv(p, s) && Smooth(p, s) && s.snd.stage.Running? && s.rcv.gate.at.Free?
    ensures CanGo(p, s)
  {
    hide CanGo, RP.Inv, PP.Inv, DataOk, MetaOk, PeersOk, OffersRouted, Signalled, AnswersSent, Drained;
    if !PT.Ended(s.pipe.main) {
      PT.InvMoves(PipeConfig(p), s.pipe);
      PumpGo(p, s);
    } else if s.routed < |s.ctrl| {
      StillRouting(s);
      RouteGo(p, s);
    } else if forall i: byte :: i < p.n ==> Drained(s, i) {
      AllDrained(p, s);
      VerifierGoes(p, s);
    } else {
      var i: byte :| i < p.n && !Drained(s, i);
      PeerGoes(p, s, i);
    }
  }

  /** A failure that holds the gate goes on to close done. */
  lemma FailureGoes(p: Plan, s: System)
    requires Inv(p, s) && !Healthy(s) && s.rcv.gate.doneCloses == 0
    ensures CanGo(p, s)
  {
    var a := FailureNext(Setup(p), s.rcv.out, s.rcv.gate);
    hide Inv, CanGo, R.CanHold;
    LocalGo(p, s, R.Hold(a));
  }

  lemma FailureNext(u: R.Setup, o: R.Output, g: R.DoneGate) returns (a: R.HoldAct)
    requires RP.GateOk(u, o.meta, g) && g.result.Some? && g.doneCloses == 0
    ensures R.CanHold(o, g, a) && OrdinaryLocal(R.Hold(a))
  {
    match g.at.stage {
      case FailSweep => a := R.Sweep;
      case Discarding => a := R.Discard;
      case Removing => a := R.Remove;
      case Announcing => a := R.Announce;
    }
  }

  /** Until done is closed some ordinary step can always be taken. */
  lemma AlwaysGoes(p: Plan, s: System)
    requires Inv(p, s) && OnCourse(p, s) && s.rcv.gate.doneCloses == 0
    ensures CanGo(p, s)
  {
    assert RP.GateOk(Setup(p), s.rcv.out.meta, s.rcv.gate);
    hide Inv, Smooth, CanGo;
    if !Healthy(s) {
      FailureGoes(p, s);
    } else if s.rcv.gate.at.Held? {
      HolderGoes(p, s);
    } else if s.snd.stage.Running? {
      RunningGoes(p, s);
    } else {
      HandshakeGoes(p, s);
    }
  }
}
