/** Every step of a whole transfer keeps its invariant. */
module TransferSteps {
  import opened Bytes
  import opened Frames
  import opened Pieces
  import opened Coders
  import opened CoreSpec
  import opened Transfer
  import opened Coverage
  import opened TransferProofs
  import H = Handshake
  import P = Pipeline
  import R = MultiReceiver
  import HP = HandshakeProofs
  import PP = PipelineProofs
  import RP = ReceiverProofs

  lemma InitInv(p: Plan, s: System)
    requires ValidPlan(p) && Init(p, s)
    ensures Inv(p, s)
  {
    RP.FreshInv(Setup(p), s.rcv.out.sink, s.rcv.gate.hasPath);
    PP.InitInv(PipeConfig(p), s.pipe);
    SumZero(s.pipe.sent, s.counted, p.n, |p.file|);
    hide PP.Inv, RP.Inv, PeersOk, DataOk, SumTo;
    InitPeers(p, s);
    InitData(p, s);
  }

  lemma InitData(p: Plan, s: System)
    requires ValidPlan(p) && Init(p, s) && SumTo(s.pipe.sent, s.counted, p.n, |p.file|) == 0
    ensures ShapeOk(p, s) && DataOk(p, s)
  {
    hide SumTo, Landed;
  }

  lemma InitPeers(p: Plan, s: System)
    requires ValidPlan(p) && Init(p, s)
    ensures PeersOk(p, s)
  {
    hide P.Init;
  }

  // ---- Frames: what other steps leave alone ----

  /** What the data invariant reads. */
  ghost predicate SameData(s: System, s': System) {
    && s'.taken == s.taken && s'.wrote == s.wrote && s'.counted == s.counted && s'.pipe == s.pipe
    && s'.rcv.handlers == s.rcv.handlers && s'.rcv.out == s.rcv.out
    && s'.rcv.gate == s.rcv.gate
  }

  lemma DataSame(p: Plan, s: System, s': System)
    requires ShapeOk(p, s) && ShapeOk(p, s') && DataOk(p, s) && SameData(s, s')
    requires FlagsOk(p, s'.rcv) && Blameless(s'.rcv)
    ensures ShapeOk(p, s') && DataOk(p, s')
  {
    hide CursorOk, SumTo, Landed, FlagsOk;
    forall i: byte | i < p.n
      ensures CursorOk(p, s'.rcv, s'.pipe.sent[i], i, s'.taken[i], s'.wrote[i], s'.counted[i])
    {
      assert CursorOk(p, s.rcv, s.pipe.sent[i], i, s.taken[i], s.wrote[i], s.counted[i]);
      CursorSame(p, s.rcv, s'.rcv, s.pipe.sent[i], i, s.taken[i], s.wrote[i], s.counted[i]);
    }
  }

  lemma CursorSame(p: Plan, r: R.Receiver, r': R.Receiver, log: seq<Frame>, i: byte, taken: nat, wrote: nat, counted: nat)
    requires CursorOk(p, r, log, i, taken, wrote, counted)
    requires (i in r.handlers <==> i in r'.handlers) && (i in r.handlers ==> r'.handlers[i] == r.handlers[i])
    requires r'.gate.cleanups >= r.gate.cleanups
    ensures CursorOk(p, r', log, i, taken, wrote, counted)
  {
  }

  // ---- The sender's steps ----

  lemma SendKeeps(p: Plan, s: System, e: H.Step, s': System)
    requires Inv(p, s) && SendStep(p, s, e, s')
    ensures Inv(p, s')
  {
    SendPeers(p, s, e, s');
    hide RP.Inv, PP.Inv, DataOk, PeersOk, H.Do, H.Can, H.Sends;
    if Healthy(s) {
      FlagsPart(p, s);
      DataSame(p, s, s');
    }
  }

  lemma SendPeers(p: Plan, s: System, e: H.Step, s': System)
    requires ValidPlan(p) && RP.AnswersOk(s.rcv) && PeersOk(p, s) && SendStep(p, s, e, s')
    ensures PeersOk(p, s')
  {
    NoAnswersYet(p, s);
    hide HP.LogOk, HP.FlowOk, H.Do, H.Can, H.Sends, HP.NegsMatch;
    HP.SendShape(p.n, s.snd, e, |s.ctrl|);
    HP.SendLog(p.n, Announced(p), s.snd, e, s.ctrl);
    HP.SendFlows(p.n, s.snd, e, |s.ctrl|, s.rcv.answers, s.heard);
    HP.NegsStay(s.snd, s'.snd, s.rcv.negs, s.routed);
  }

  lemma NoAnswersYet(p: Plan, s: System)
    requires |p.file| < TWO64 && RP.AnswersOk(s.rcv) && PeersOk(p, s)
    ensures !HP.Built(s.snd) ==> s.rcv.answers == []
  {
    if s.rcv.answers != [] {
      var id := s.rcv.answers[0].id;
      assert id in s.rcv.negs && id < |s.snd.offerers|;
    }
  }

  lemma FlagsPart(p: Plan, s: System)
    requires ShapeOk(p, s) && DataOk(p, s)
    ensures FlagsOk(p, s.rcv) && Blameless(s.rcv)
  {
  }

  lemma HearKeeps(p: Plan, s: System, s': System)
    requires Inv(p, s) && HearStep(p, s, s')
    ensures Inv(p, s')
  {
    hide RP.Inv, PP.Inv, DataOk, HP.FlowOk;
    HP.HearFlows(p.n, s.snd, s.rcv.answers, s.heard);
    HearLog(p.n, Announced(p), s.snd, s.ctrl, s.rcv.answers[s.heard]);
    if Healthy(s) {
      FlagsPart(p, s);
      DataSame(p, s, s');
    }
  }

  lemma HearLog(n: nat, m: Metadata, snd: H.Sender, ctrl: seq<Frame>, f: Frame)
    requires HP.LogOk(m, snd, ctrl) && f.Answer?
    ensures HP.LogOk(m, H.Hear(n, snd, f.id, f.sdp), ctrl)
  {
    var snd' := H.Hear(n, snd, f.id, f.sdp);
    forall k | 0 <= k < |ctrl| ensures HP.CtrlOk(m, snd', k, ctrl[k]) {
      assert HP.CtrlOk(m, snd, k, ctrl[k]);
    }
  }

  lemma PumpKeeps(p: Plan, s: System, e: P.Event, reason: Option<bytes>, s': System)
    requires Inv(p, s) && PumpStep(p, s, e, reason, s')
    ensures Inv(p, s')
  {
    PP.StepKeepsInv(PipeConfig(p), s.pipe, e, s'.pipe);
    LogsGrow(PipeConfig(p), s.pipe, e, s'.pipe);
    PumpPeers(p, s, s', reason);
    hide RP.Inv, PP.Inv, DataOk, P.Step, PeersOk, PipeSends;
    if Healthy(s) { DataGrows(p, s, s'); }
  }

  lemma PumpPeers(p: Plan, s: System, s': System, reason: Option<bytes>)
    requires |p.file| < TWO64 && PeersOk(p, s) && s.snd.stage.Running?
    requires s' == s.(pipe := s'.pipe, ctrl := s.ctrl + PipeSends(s.pipe, s'.pipe, reason))
    ensures PeersOk(p, s')
  {
    hide HP.LogOk, HP.FlowOk, HP.NegsMatch;
    PipeLog(p, s, s', reason);
  }

  lemma PipeLog(p: Plan, s: System, s': System, reason: Option<bytes>)
    requires |p.file| < TWO64 && HP.LogOk(Announced(p), s.snd, s.ctrl) && HP.Built(s.snd)
    requires s'.ctrl == s.ctrl + PipeSends(s.pipe, s'.pipe, reason) && s'.snd == s.snd
    ensures HP.LogOk(Announced(p), s'.snd, s'.ctrl) && |s'.ctrl| >= |s.ctrl|
  {
    var more := PipeSends(s.pipe, s'.pipe, reason);
    if more == [] {
      assert s'.ctrl == s.ctrl;
    } else {
      HP.LogGrows(Announced(p), s.snd, s.ctrl, more[0]);
    }
  }

  lemma DataGrows(p: Plan, s: System, s': System)
    requires ShapeOk(p, s) && DataOk(p, s) && Extends(s.pipe.sent, s'.pipe.sent)
    requires s' == s.(pipe := s'.pipe, ctrl := s'.ctrl) && p.n <= 0x100
    ensures ShapeOk(p, s') && DataOk(p, s')
  {
    hide CursorOk, Landed;
    SumExtends(s.pipe.sent, s'.pipe.sent, s.counted, p.n, |p.file|);
    SumExtends(s.pipe.sent, s'.pipe.sent, s.wrote, 0, |p.file|);
    forall i: byte | i < p.n
      ensures CursorOk(p, s'.rcv, s'.pipe.sent[i], i, s'.taken[i], s'.wrote[i], s'.counted[i])
    {
      assert CursorOk(p, s.rcv, s.pipe.sent[i], i, s.taken[i], s.wrote[i], s.counted[i]);
      CursorGrows(p, s.rcv, s.pipe.sent[i], s'.pipe.sent[i], i, s.taken[i], s.wrote[i], s.counted[i]);
    }
    forall i, j | 0 <= i < p.n && 0 <= j < s'.wrote[i] && j < |s'.pipe.sent[i]|
      ensures Landed(p.file, s'.rcv.out.sink, s'.pipe.sent[i][j])
    {
      assert s.wrote[i] <= |s.pipe.sent[i]|;
      assert Landed(p.file, s.rcv.out.sink, s.pipe.sent[i][j]);
      assert s'.pipe.sent[i][j] == s.pipe.sent[i][j];
    }
  }

  lemma CursorGrows(p: Plan, r: R.Receiver, log: seq<Frame>, log': seq<Frame>, i: byte, taken: nat, wrote: nat, counted: nat)
    requires CursorOk(p, r, log, i, taken, wrote, counted) && log <= log'
    ensures CursorOk(p, r, log', i, taken, wrote, counted)
  {
  }

  // ---- The control loop ----

  lemma RouteKeeps(p: Plan, s: System, ok: bool, s': System)
    requires Inv(p, s) && RouteStep(s, ok, s')
    ensures Inv(p, s')
  {
    RP.StepKeepsInv(Setup(p), s.rcv, R.Control(s.ctrl[s.routed], ok));
    RP.ControlFrame(s.rcv, s.ctrl[s.routed], ok);
    RoutePeers(p, s, ok, s');
    RouteMeta(p, s, ok, s');
    if Healthy(s) { RouteData(p, s, ok, s'); }
    hide RP.Inv, PP.Inv, PeersOk, DataOk, MetaOk, R.TakeControl;
  }

  lemma RoutePeers(p: Plan, s: System, ok: bool, s': System)
    requires |p.file| < TWO64 && PeersOk(p, s) && RouteStep(s, ok, s')
    ensures PeersOk(p, s')
  {
    var f := s.ctrl[s.routed];
    assert HP.CtrlOk(Announced(p), s.snd, s.routed, f);
    RP.ControlFrame(s.rcv, f, ok);
    if f.Offer? { HP.OfferIsFresh(Announced(p), s.snd, s.ctrl, s.rcv.negs, s.routed); }
    NegsAfter(s.rcv, f, ok);
    hide HP.LogOk, HP.FlowOk, R.TakeControl;
  }

  /** Only an offer adds a negotiation, and with the offer's own description. */
  lemma NegsAfter(r: R.Receiver, f: Frame, ok: bool)
    ensures forall id :: id in R.TakeControl(r, f, ok).negs && id !in r.negs ==>
              f.Offer? && f.id == id && R.TakeControl(r, f, ok).negs[id].offer == f.sdp
  {
    hide R.MetadataStep;
  }

  lemma RouteMeta(p: Plan, s: System, ok: bool, s': System)
    requires Inv(p, s) && RouteStep(s, ok, s')
    ensures MetaOk(p, s')
  {
    var f := s.ctrl[s.routed];
    assert HP.CtrlOk(Announced(p), s.snd, s.routed, f);
    assert RP.SizeOk(s.rcv);
    hide RP.Inv, PP.Inv, PeersOk, DataOk;
    if f.Meta? { MetadataArrives(p, s.rcv, ok); }
  }

  /** The sender's METADATA is never refused; at worst the file cannot be truncated. */
  lemma MetadataArrives(p: Plan, r: R.Receiver, ok: bool)
    requires |p.file| < TWO64 && r.out.meta.None?
    ensures var (o, err) := R.MetadataStep(r.out, r.gate.fileOpen, Announced(p), ok);
            && o.meta == Some(Announced(p)) && o.bytesWritten == r.out.bytesWritten
            && (err.None? ==> o.sized && (o.allBytes <==> r.out.allBytes || |p.file| == 0))
            && (err.Some? ==> err == Some(TruncateFailed) && o == r.out.(meta := o.meta))
  {
    hide Resize;
  }

  lemma RouteData(p: Plan, s: System, ok: bool, s': System)
    requires Inv(p, s) && Healthy(s) && RouteStep(s, ok, s')
    ensures ShapeOk(p, s') && DataOk(p, s')
  {
    var f := s.ctrl[s.routed];
    assert HP.CtrlOk(Announced(p), s.snd, s.routed, f);
    RP.ControlFrame(s.rcv, f, ok);
    if f.Meta? {
      RouteMetadata(p, s, ok, s');
    } else {
      RouteOther(p, s, ok, s');
    }
  }

  lemma RouteMetadata(p: Plan, s: System, ok: bool, s': System)
    requires Inv(p, s) && Healthy(s) && RouteStep(s, ok, s') && s.routed == 0 && s.ctrl[0] == Meta(Announced(p))
    ensures ShapeOk(p, s') && DataOk(p, s')
  {
    assert RP.SizeOk(s.rcv) && RP.HandlersOk(s.rcv) && s.rcv.handlers == map[];
    NothingTaken(p, s);
    MetadataArrives(p, s.rcv, ok);
    RP.ControlFrame(s.rcv, s.ctrl[0], ok);
    MetadataFlags(p, s.rcv, ok);
    hide RP.Inv, PP.Inv, PeersOk, SumTo, R.MetadataStep, Landed, FlagsOk, Blameless;
  }

  lemma MetadataFlags(p: Plan, r: R.Receiver, ok: bool)
    requires |p.file| < TWO64 && r.out.meta.None? && r.handlers == map[] && FlagsOk(p, r) && Blameless(r)
             && RP.SizeOk(r)
    ensures FlagsOk(p, R.TakeControl(r, Meta(Announced(p)), ok)) && Blameless(R.TakeControl(r, Meta(Announced(p)), ok))
  {
    MetadataArrives(p, r, ok);
    hide R.MetadataStep;
  }

  lemma NothingTaken(p: Plan, s: System)
    requires ShapeOk(p, s) && CursorsOk(p, s) && s.rcv.handlers == map[] && p.n <= 0x100
    ensures forall i :: 0 <= i < p.n ==> s.taken[i] == s.wrote[i] == s.counted[i] == 0
  {
    forall i | 0 <= i < p.n ensures s.taken[i] == s.wrote[i] == s.counted[i] == 0 {
      var b: byte := i;
      assert CursorOk(p, s.rcv, s.pipe.sent[b], b, s.taken[b], s.wrote[b], s.counted[b]);
    }
  }

  lemma RouteOther(p: Plan, s: System, ok: bool, s': System)
    requires Inv(p, s) && Healthy(s) && RouteStep(s, ok, s') && !s.ctrl[s.routed].Meta?
    ensures ShapeOk(p, s') && DataOk(p, s')
  {
    var f := s.ctrl[s.routed];
    assert HP.CtrlOk(Announced(p), s.snd, s.routed, f);
    if f.Offer? { HP.OfferIsFresh(Announced(p), s.snd, s.ctrl, s.rcv.negs, s.routed); }
    assert f.Complete? ==> s.rcv.out.meta.Some?;
    hide RP.Inv, PP.Inv, PeersOk, CursorsOk, SumOk, SinkOk, FlagsOk, Blameless, R.TakeControl;
    HonestFrame(p, s.rcv, f, ok);
    DataSame(p, s, s');
  }

  /** An honest sender's control frames after METADATA give no reason for complaint. */
  lemma HonestFrame(p: Plan, r: R.Receiver, f: Frame, ok: bool)
    requires FlagsOk(p, r) && Blameless(r)
    requires (f.Offer? && f.id !in r.negs) || (f.Complete? && r.out.meta.Some?) || f.Abort?
    ensures var d := R.TakeControl(r, f, ok);
            FlagsOk(p, d) && Blameless(d) && d.out == r.out && d.handlers == r.handlers && d.gate == r.gate
  {
  }
}
