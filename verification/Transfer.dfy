/**
 * A whole multi-connection transfer: an honest sender (handshake and striping pipeline), the reliable
 * channels between the two sides, and the receiver, as one step system. Channels are logs of
 * everything sent, with a count of what has been read. Any routine may move next and anything that
 * can fail may fail at any time.
 */
module Transfer {
  import opened Bytes
  import opened Frames
  import opened Coders
  import H = Handshake
  import P = Pipeline
  import R = MultiReceiver

  datatype Plan = Plan(file: bytes, n: nat, coder: Coder, hash: bytes -> Digest)

  /** Config.Validate allows 1 to 16 connections; ids are distinct for up to 256. */
  ghost predicate ValidPlan(p: Plan) { 0 < p.n <= 0x100 && |p.file| < TWO64 && p.coder.Sound() }

  datatype System = System(
    snd: H.Sender,
    pipe: P.State,                    // the data channels are its sent logs
    rcv: R.Receiver,
    ctrl: seq<Frame>,                 // control channel, sender to receiver
    routed: nat,                      // control frames the receiver has taken
    heard: nat,                       // answers the sender has taken
    taken: seq<nat>,                  // per peer, DATA frames the receiver has taken
    wrote: seq<nat>,                  // history: of those, how many have been written
    counted: seq<nat>)                // history: and how many have been counted

  datatype Event =
    | Send(step: H.Step)
    | Pump(event: P.Event, reason: Option<bytes>)   // reason: of an ABORT that reaches the channel
    | Hear
    | Route(truncateOk: bool)
    | Install(i: nat, decoderOk: bool)
    | Take(i: nat)
    | Local(action: R.Action)

  function PipeConfig(p: Plan): P.Config { P.Config(p.file, p.n, p.coder) }

  function Setup(p: Plan): R.Setup { R.Setup(p.coder, p.hash) }

  function Announced(p: Plan): Metadata
    requires |p.file| < TWO64
  {
    MetaFor(p.file, p.coder, p.hash)
  }

  /** Actions of the receiver that no message or connection event brings about. */
  predicate IsLocal(a: R.Action) { !a.Control? && !(a.Peer? && (a.data.Install? || a.data.Deliver?)) }

  /** TRANSFER_COMPLETE, or an ABORT when the pipeline has failed. */
  function PipeSends(s: P.State, s': P.State, reason: Option<bytes>): seq<Frame> {
    if s'.main.Completed? && !s.main.Completed? then [Complete]
    else if s'.main.Aborted? && !s.main.Aborted? && reason.Some? then [Abort(reason.value)]
    else []
  }

  predicate Init(p: Plan, s: System) {
    && s.snd == H.FreshSender() && P.Init(PipeConfig(p), s.pipe)
    && s.rcv == R.FreshReceiver(s.rcv.out.sink, s.rcv.gate.hasPath)
    && s.ctrl == [] && s.routed == 0 && s.heard == 0
    && s.taken == s.wrote == s.counted == seq(p.n, _ => 0)
  }

  predicate SendStep(p: Plan, s: System, e: H.Step, s': System)
    requires |p.file| < TWO64
  {
    && H.Can(s.snd, e)
    && s' == s.(snd := H.Do(p.n, s.snd, e, |s.ctrl|), ctrl := s.ctrl + H.Sends(Announced(p), s.snd, e))
  }

  predicate PumpStep(p: Plan, s: System, e: P.Event, reason: Option<bytes>, s': System) {
    && s.snd.stage.Running? && P.Step(PipeConfig(p), s.pipe, e, s'.pipe)
    && s' == s.(pipe := s'.pipe, ctrl := s.ctrl + PipeSends(s.pipe, s'.pipe, reason))
  }

  /** The sender's control handler takes the next answer. */
  predicate HearStep(p: Plan, s: System, s': System) {
    && s.heard < |s.rcv.answers| && s.rcv.answers[s.heard].Answer?
    && s' == s.(snd := H.Hear(p.n, s.snd, s.rcv.answers[s.heard].id, s.rcv.answers[s.heard].sdp), heard := s.heard + 1)
  }

  /** The receiver's control loop takes the next control frame. */
  predicate RouteStep(s: System, truncateOk: bool, s': System) {
    && s.routed < |s.ctrl| && s.rcv.routing
    && s' == s.(rcv := R.TakeControl(s.rcv, s.ctrl[s.routed], truncateOk), routed := s.routed + 1)
  }

  /** Peer i's data channel opens at the receiver, which it can once the sender has accepted the answer. */
  predicate InstallStep(p: Plan, s: System, i: nat, decoderOk: bool, s': System) {
    && i < p.n <= 0x100 && i < |s.snd.accepted| && s.snd.accepted[i] != []
    && R.CanPeer(s.rcv, i, R.Install(decoderOk))
    && s' == s.(rcv := R.DoPeer(Setup(p), s.rcv, i, R.Install(decoderOk)))
  }

  /** The frame loop of peer i takes the next frame of its channel. */
  predicate TakeStep(p: Plan, s: System, i: nat, s': System) {
    && i < p.n <= 0x100 && i < |s.taken| && i < |s.pipe.sent| && s.taken[i] < |s.pipe.sent[i]|
    && var a := R.Deliver(s.pipe.sent[i][s.taken[i]]);
       && R.CanPeer(s.rcv, i, a)
       && s' == s.(rcv := R.DoPeer(Setup(p), s.rcv, i, a), taken := s.taken[i := s.taken[i] + 1])
  }

  function Bump(counts: seq<nat>, id: nat): seq<nat> {
    if id < |counts| then counts[id := counts[id] + 1] else counts
  }

  /** Whether an action writes a whole payload. */
  predicate Writes(p: Plan, r: R.Receiver, a: R.Action)
    requires R.Can(r, a)
  {
    a.Peer? && a.data.Write? && R.DataStep(Setup(p), r.gate, r.out, r.handlers[a.id], a.data).2.None?
  }

  /** Any other action of the receiver. */
  predicate LocalStep(p: Plan, s: System, a: R.Action, s': System) {
    && IsLocal(a) && R.Can(s.rcv, a)
    && s' == s.(rcv := R.Do(Setup(p), s.rcv, a),
                wrote := if Writes(p, s.rcv, a) then Bump(s.wrote, a.id) else s.wrote,
                counted := if a.Peer? && a.data.Count? then Bump(s.counted, a.id) else s.counted)
  }

  predicate Step(p: Plan, s: System, e: Event, s': System)
    requires |p.file| < TWO64
  {
    match e
    case Send(x) => SendStep(p, s, x, s')
    case Pump(x, reason) => PumpStep(p, s, x, reason, s')
    case Hear => HearStep(p, s, s')
    case Route(ok) => RouteStep(s, ok, s')
    case Install(i, ok) => InstallStep(p, s, i, ok, s')
    case Take(i) => TakeStep(p, s, i, s')
    case Local(a) => LocalStep(p, s, a, s')
  }

  ghost predicate Next(p: Plan, s: System, s': System)
    requires |p.file| < TWO64
  {
    exists e :: Step(p, s, e, s')
  }

  /** A run of the whole system, under any interleaving and with any failures of the environment. */
  ghost predicate IsRun(p: Plan, run: seq<System>) {
    && ValidPlan(p) && run != [] && Init(p, run[0])
    && forall k :: 0 <= k < |run| - 1 ==> Next(p, run[k], run[k + 1])
  }
}
