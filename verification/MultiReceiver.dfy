/**
 * The multi-connection receiver (pkg/transfer/receiver/multi.go over core.go) as a step system: the
 * control router, one negotiator and one frame handler a peer, any number of callers of fail and
 * verifyAndClose, and the routine that holds the once-only done gate. One event is one action of one
 * routine; any event that can happen may come next, from an honest or a dishonest sender.
 */
module MultiReceiver {
  import opened Bytes
  import opened Frames
  import opened Coders
  import opened CoreSpec

  /** What the routine inside doneOnce does next. */
  datatype Stage =
    | FailSweep                       // fail: cleanup
    | VerifySweep                     // verifyAndClose: cleanup
    | Syncing
    | Hashing                         // verifyIntegrity
    | Keeping                         // close the finished file
    | Discarding                      // abortFile: close the file
    | Removing                        // abortFile: remove it
    | Announcing                      // close(done)
    | Releasing                       // leave doneOnce

  datatype Place = Free | Held(stage: Stage) | Finished

  /** A verifyAndClose call outside the gate. */
  datatype Verifier = Started | Waiting | Passed | Entering | Returned

  /** The output file and what is counted about it. */
  datatype Output = Output(
    meta: Option<Metadata>,
    sink: bytes,
    sized: bool,                      // history: Truncate succeeded
    bytesWritten: u64,
    allBytes: bool)                   // allBytesCh closed

  /** The done gate and everything only its holder changes. */
  datatype DoneGate = DoneGate(
    at: Place,
    doneCloses: nat,                  // how often done was closed
    cleanups: nat,
    result: Option<CoreError>,
    fileOpen: bool,
    hasPath: bool,
    removed: bool,
    hashed: bytes)                    // what verifyIntegrity has read

  /** Calls that have not reached the gate. */
  datatype Callers = Callers(fails: multiset<CoreError>, verifiers: seq<Verifier>)

  /** When something happened relative to cleanup and to the close of done. */
  datatype Moment = BeforeSweep | AfterSweep | AfterDone

  /** Where negotiateReceivePeer is. */
  datatype Phase =
    | Building                        // CreateConnection next
    | Built                           // not yet in the peer map
    | Joined                          // in the map; AcceptOffer next
    | Accepted(answer: bytes)         // check of done and the context next
    | Cleared(answer: bytes)          // ANSWER next
    | Failing                         // in fail, then the deferred closeSess
    | Bailing                         // the deferred closeSess next
    | Answered(answer: bytes, pos: nat)  // returned with success; pos counts the answers sent before
    | Left                            // returned without success
    | Unbuilt                         // returned because CreateConnection failed

  datatype Neg = Neg(offer: bytes, phase: Phase, closes: nat, joinedAt: Moment, checkedAt: Moment)

  /** Where the frame loop of a data peer is. */
  datatype Turn = Idle | Checked(offset: u64, payload: bytes) | Wrote(len: nat) | Counted(full: bool) | Stopped

  datatype Handler = Handler(decoder: bool, turn: Turn)

  datatype Receiver = Receiver(
    out: Output,
    gate: DoneGate,
    callers: Callers,
    routing: bool,                    // the control loop still runs
    completeSeen: bool,
    negs: map<byte, Neg>,
    handlers: map<byte, Handler>,
    answers: seq<Frame>,              // everything sent on the control channel
    protocolError: bool)              // history: some handler reported a violation of the protocol

  datatype Setup = Setup(coder: Coder, hash: bytes -> Digest)

  datatype NegAct =
    | Build(ok: bool)                 // CreateConnection
    | Join
    | Accept(answer: bytes)
    | AcceptFails
    | Check(cancelled: bool)
    | SendAnswer(ok: bool)
    | CloseOwn

  datatype DataAct =
    | Install(decoderOk: bool)        // installDataPeer
    | Deliver(frame: Frame)
    | Write(writing: Writing)
    | Count
    | Signal
    | Closed                          // the watcher of the data channel wakes up
    | Breaks(reason: Option<bytes>)   // the frame loop ends, with a transport error or at the end of the channel

  datatype VerifyAct = Start | Pass | Quit | TimeOut | Compare | Enter | Skip

  datatype CallAct =
    | ControlClosed                   // the watcher of the control channel wakes up
    | ControlEnds                     // the control loop ends; an error is only logged
    | EnterFail(error: CoreError)
    | SkipFail(error: CoreError)
    | Verify(k: nat, step: VerifyAct)

  datatype HoldAct =
    | Sweep
    | Sync(ok: bool)
    | ReadBlock(ok: bool)
    | Judge
    | Keep
    | Discard
    | Remove
    | Announce
    | Release

  datatype Action =
    | Control(frame: Frame, truncateOk: bool)
    | Negotiate(id: byte, neg: NegAct)
    | Peer(id: byte, data: DataAct)
    | Call(call: CallAct)
    | Hold(hold: HoldAct)

  /** Errors that blame the other side's frames rather than the file system, the transport or time. */
  predicate BlamesSender(e: CoreError) {
    e.BadVersion? || e.BadCodec? || e.DuplicateMetadata? || e.UndecodableData? || e.DataBeforeMetadata?
    || e.OutOfBounds? || e.VerifyBeforeMetadata? || e.TooManyBytes? || e.IntegrityFailed?
    || e.UnexpectedFrame? || e.CompleteBeforeMetadata?
  }

  function FreshReceiver(contents: bytes, hasPath: bool): Receiver {
    Receiver(Output(None, contents, false, 0, false), DoneGate(Free, 0, 0, None, true, hasPath, false, []),
             Callers(multiset{}, []), true, false, map[], map[], [], false)
  }

  // ---- Pieces of steps ----

  function Now(g: DoneGate): Moment {
    if g.doneCloses > 0 then AfterDone else if g.cleanups > 0 then AfterSweep else BeforeSweep
  }

  /** Whether the negotiator has put its peer into the map that cleanup walks. */
  predicate InMap(p: Phase) { !p.Building? && !p.Built? && !p.Unbuilt? }

  /** A handler reports e: it calls fail and waits for the gate. */
  function Report(s: Receiver, e: CoreError): Receiver {
    s.(callers := s.callers.(fails := s.callers.fails + multiset{e}),
       protocolError := s.protocolError || BlamesSender(e))
  }

  function Max(a: nat, b: nat): nat { if a < b then b else a }
  function Min(a: nat, b: nat): nat { if a < b then a else b }

  /** WriteAt on an open file, which grows when the write ends beyond it. */
  function PutAt(s: bytes, at: nat, p: bytes): bytes { Overwrite(Resize(s, Max(|s|, at + |p|)), at, p) }

  // ---- The control router ----

  /** handleMetadata: the output after it, and its error. */
  function MetadataStep(o: Output, fileOpen: bool, m: Metadata, truncateOk: bool): (Output, Option<CoreError>) {
    if m.version != PROTOCOL_VERSION then (o, Some(BadVersion))
    else if m.codec != CODEC_NONE && m.codec != CODEC_ZSTD then (o, Some(BadCodec))
    else if o.meta.Some? then (o, Some(DuplicateMetadata))
    else if Signed(m.fileSize) < 0 || !fileOpen || !truncateOk then (o.(meta := Some(m)), Some(TruncateFailed))
    else (Output(Some(m), Resize(o.sink, m.fileSize), true, o.bytesWritten, o.allBytes || m.fileSize == 0), None)
  }

  function TakeMetadata(s: Receiver, m: Metadata, truncateOk: bool): Receiver {
    var (o, err) := MetadataStep(s.out, s.gate.fileOpen, m, truncateOk);
    if err.Some? then Report(s.(out := o, routing := false), err.value) else s.(out := o)
  }

  /** A second offer for the same id ends the control loop, without failing the transfer. */
  function TakeOffer(s: Receiver, id: byte, sdp: bytes): Receiver {
    if id in s.negs then s.(routing := false, protocolError := true)
    else s.(negs := s.negs[id := Neg(sdp, Building, 0, BeforeSweep, BeforeSweep)])
  }

  function TakeComplete(s: Receiver): Receiver {
    if s.out.meta.None? then Report(s.(routing := false), CompleteBeforeMetadata)
    else s.(completeSeen := true, callers := s.callers.(verifiers := s.callers.verifiers + [Started]))
  }

  function TakeControl(s: Receiver, f: Frame, truncateOk: bool): Receiver {
    match f
    case Meta(m) => TakeMetadata(s, m, truncateOk)
    case Offer(id, sdp) => TakeOffer(s, id, sdp)
    case Complete => TakeComplete(s)
    case Abort(reason) => Report(s.(routing := false), Other(reason))
    case _ => s.(routing := false, protocolError := true)
  }

  // ---- Negotiators ----

  predicate CanNegotiate(g: DoneGate, n: Neg, a: NegAct) {
    match a
    case Build(_) => n.phase.Building?
    case Join => n.phase.Built?
    case Accept(_) => n.phase.Joined?
    case AcceptFails => n.phase.Joined?
    case Check(_) => n.phase.Accepted?
    case SendAnswer(_) => n.phase.Cleared?
    case CloseOwn => n.phase.Bailing? || (n.phase.Failing? && g.at.Finished?)
  }

  /** closeSess: sync.Once lets the first caller close the session. */
  function CloseSess(n: Neg): Neg { n.(closes := if n.closes == 0 then 1 else n.closes) }

  /** One action of negotiateReceivePeer; sent counts the answers already on the control channel. */
  function NegStep(g: DoneGate, n: Neg, a: NegAct, sent: nat): Neg
    requires CanNegotiate(g, n, a)
  {
    match a
    case Build(ok) => n.(phase := if ok then Built else Unbuilt)
    case Join => n.(phase := Joined, joinedAt := Now(g))
    case Accept(answer) => n.(phase := Accepted(answer))
    case AcceptFails => n.(phase := Failing)
    case Check(cancelled) =>
      if cancelled || g.doneCloses > 0 then n.(phase := Bailing)
      else n.(phase := Cleared(n.phase.answer), checkedAt := Now(g))
    case SendAnswer(ok) => n.(phase := if ok then Answered(n.phase.answer, sent) else Failing)
    case CloseOwn => CloseSess(n).(phase := Left)
  }

  function DoNegotiate(s: Receiver, id: byte, a: NegAct): Receiver
    requires id in s.negs && CanNegotiate(s.gate, s.negs[id], a)
  {
    var t := s.(negs := s.negs[id := NegStep(s.gate, s.negs[id], a, |s.answers|)]);
    if a == Build(false) || a.AcceptFails? || a == SendAnswer(false) then Report(t, NegotiationFailed)
    else if a == SendAnswer(true) then t.(answers := s.answers + [Answer(id, s.negs[id].phase.answer)])
    else t
  }

  // ---- Data peers ----

  predicate CanPeer(s: Receiver, id: byte, a: DataAct) {
    if a.Install? then id in s.negs && InMap(s.negs[id].phase) && !s.negs[id].phase.Joined? && id !in s.handlers
    else id in s.handlers && CanTurn(s.handlers[id].turn, a)
  }

  predicate CanTurn(t: Turn, a: DataAct) {
    match a
    case Install(_) => false
    case Deliver(_) => t.Idle?
    case Write(_) => t.Checked?
    case Count => t.Wrote?
    case Signal => t.Counted?
    case Closed => true
    case Breaks(_) => t.Idle?
  }

  predicate NeedsDecoder(o: Output) { o.meta.Some? && o.meta.value.codec == CODEC_ZSTD }

  /**
   * A DATA frame's handling before the write: decompression, which refuses outputs no slice can hold,
   * and the test against METADATA's size.
   */
  function Examine(u: Setup, o: Output, decoder: bool, offset: u64, payload: bytes): Result<bytes, CoreError> {
    var plain := if decoder then u.coder.Decode(payload) else Some(payload);
    if plain.None? || |plain.value| >= TWO64 then Err(UndecodableData)
    else if o.meta.None? then Err(DataBeforeMetadata)
    else if !InBounds(offset, |plain.value|, o.meta.value.fileSize) then Err(OutOfBounds)
    else Ok(plain.value)
  }

  /** One action of a data peer's frame loop: its next turn, the output after it, and the error it reports. */
  function DataStep(u: Setup, g: DoneGate, o: Output, h: Handler, a: DataAct): (Turn, Output, Option<CoreError>)
    requires CanTurn(h.turn, a)
  {
    match a
    case Deliver(f) =>
      if !f.Data? then (Stopped, o, Some(UnexpectedFrame))
      else
        (match Examine(u, o, h.decoder, f.offset, f.payload)
         case Err(e) => (Stopped, o, Some(e))
         case Ok(p) => (Checked(f.offset, p), o, None))
    case Write(w) =>
      var at, p := h.turn.offset, h.turn.payload;
      if !g.fileOpen || Signed(at) < 0 then (Stopped, o, Some(WriteFailed))
      else if w.Written? then (Wrote(|p|), o.(sink := PutAt(o.sink, at, p)), None)
      else if 0 < w.prefix < |p| then (Stopped, o.(sink := PutAt(o.sink, at, p[..w.prefix])), Some(WriteFailed))
      else (Stopped, o, Some(WriteFailed))
    case Count =>
      var n := (o.bytesWritten + h.turn.len) % TWO64;
      (Counted(o.meta.Some? && n >= o.meta.value.fileSize), o.(bytesWritten := n), None)
    case Signal => (Idle, o.(allBytes := o.allBytes || h.turn.full), None)
    case Closed =>
      (h.turn, o, if g.doneCloses == 0 && (o.meta.None? || o.bytesWritten < o.meta.value.fileSize) then Some(ClosedEarly)
                  else None)
    case Breaks(reason) => (Stopped, o, if reason.Some? then Some(Other(reason.value)) else None)
    case _ => (h.turn, o, None)
  }

  function DoPeer(u: Setup, s: Receiver, id: byte, a: DataAct): Receiver
    requires CanPeer(s, id, a)
  {
    if a.Install? then
      if NeedsDecoder(s.out) && !a.decoderOk then Report(s, DecoderFailed)
      else s.(handlers := s.handlers[id := Handler(NeedsDecoder(s.out), Idle)])
    else
      var (turn, out, err) := DataStep(u, s.gate, s.out, s.handlers[id], a);
      var t := s.(handlers := s.handlers[id := s.handlers[id].(turn := turn)], out := out);
      if err.Some? then Report(t, err.value) else t
  }

  // ---- Callers of the gate ----

  predicate CanVerify(s: Receiver, k: nat, a: VerifyAct) {
    && k < |s.callers.verifiers|
    && var v := s.callers.verifiers[k];
       match a
       case Start => v.Started?
       case Pass => v.Waiting? && s.out.allBytes
       case Quit => v.Waiting? && s.gate.doneCloses > 0
       case TimeOut => v.Waiting?
       case Compare => v.Passed?
       case Enter => v.Entering? && s.gate.at.Free?
       case Skip => v.Entering? && s.gate.at.Finished?
  }

  predicate CanCall(s: Receiver, a: CallAct) {
    match a
    case EnterFail(e) => e in s.callers.fails && s.gate.at.Free?
    case SkipFail(e) => e in s.callers.fails && s.gate.at.Finished?
    case Verify(k, step) => CanVerify(s, k, step)
    case _ => true
  }

  function VerifierNext(s: Receiver, a: VerifyAct): (Verifier, Option<CoreError>) {
    match a
    case Start => if s.out.meta.None? then (Returned, Some(VerifyBeforeMetadata)) else (Waiting, None)
    case Pass => (Passed, None)
    case TimeOut => (Returned, Some(TimedOut))
    case Compare =>
      if s.out.meta.Some? && s.out.bytesWritten > s.out.meta.value.fileSize then (Returned, Some(TooManyBytes))
      else (Entering, None)
    case _ => (Returned, None)
  }

  function DoVerify(s: Receiver, k: nat, a: VerifyAct): Receiver
    requires CanVerify(s, k, a)
  {
    var (v, err) := VerifierNext(s, a);
    var t := s.(callers := s.callers.(verifiers := s.callers.verifiers[k := v]));
    if err.Some? then Report(t, err.value)
    else if a.Enter? then t.(gate := s.gate.(at := Held(VerifySweep)))
    else t
  }

  function DoCall(s: Receiver, a: CallAct): Receiver
    requires CanCall(s, a)
  {
    match a
    case ControlClosed => if s.gate.doneCloses > 0 then s else Report(s, ClosedEarly)
    case ControlEnds => s.(routing := false)
    case EnterFail(e) =>
      s.(callers := s.callers.(fails := s.callers.fails - multiset{e}),
         gate := s.gate.(result := Some(e), at := Held(FailSweep)))
    case SkipFail(e) => s.(callers := s.callers.(fails := s.callers.fails - multiset{e}))
    case Verify(k, step) => DoVerify(s, k, step)
  }

  // ---- The gate's holder ----

  predicate CanHold(o: Output, g: DoneGate, a: HoldAct) {
    match a
    case Sweep => g.at == Held(FailSweep) || g.at == Held(VerifySweep)
    case Sync(_) => g.at == Held(Syncing)
    case ReadBlock(_) => g.at == Held(Hashing) && o.meta.Some? && |g.hashed| < o.meta.value.fileSize
    case Judge => g.at == Held(Hashing) && o.meta.Some? && |g.hashed| >= o.meta.value.fileSize
    case Keep => g.at == Held(Keeping)
    case Discard => g.at == Held(Discarding)
    case Remove => g.at == Held(Removing)
    case Announce => g.at == Held(Announcing)
    case Release => g.at == Held(Releasing)
  }

  function FailWith(g: DoneGate, e: CoreError): DoneGate { g.(result := Some(e), at := Held(Discarding)) }

  /** One action inside doneOnce, for fail and for verifyAndClose. */
  function HoldStep(u: Setup, o: Output, g: DoneGate, a: HoldAct): DoneGate
    requires CanHold(o, g, a)
  {
    match a
    case Sweep => g.(cleanups := g.cleanups + 1, at := if g.at.stage.FailSweep? then Held(Discarding) else Held(Syncing))
    case Sync(ok) => if ok then g.(at := Held(Hashing)) else FailWith(g, SyncFailed)
    case ReadBlock(ok) =>
      var n := |g.hashed|;
      if !ok || n >= |o.sink| then FailWith(g, HashReadFailed)
      else g.(hashed := g.hashed + o.sink[n..Min(|o.sink|, n + 65_536)])
    case Judge => if u.hash(g.hashed) == o.meta.value.sha256 then g.(at := Held(Keeping)) else FailWith(g, IntegrityFailed)
    case Keep => g.(fileOpen := false, at := Held(Announcing))
    case Discard => g.(fileOpen := false, at := Held(Removing))
    case Remove => g.(removed := g.hasPath, at := Held(Announcing))
    case Announce => g.(doneCloses := g.doneCloses + 1, at := Held(Releasing))
    case Release => g.(at := Finished)
  }

  /** cleanup closes every peer that is in the map, and drops its decoder. */
  function DoHold(u: Setup, s: Receiver, a: HoldAct): Receiver
    requires CanHold(s.out, s.gate, a)
  {
    var t := s.(gate := HoldStep(u, s.out, s.gate, a));
    if a.Sweep? then
      t.(negs := map id | id in s.negs :: if InMap(s.negs[id].phase) then CloseSess(s.negs[id]) else s.negs[id],
         handlers := map id | id in s.handlers :: s.handlers[id].(decoder := false))
    else t
  }

  // ---- Steps and runs ----

  predicate Can(s: Receiver, e: Action) {
    match e
    case Control(_, _) => s.routing
    case Negotiate(id, a) => id in s.negs && CanNegotiate(s.gate, s.negs[id], a)
    case Peer(id, a) => CanPeer(s, id, a)
    case Call(a) => CanCall(s, a)
    case Hold(a) => CanHold(s.out, s.gate, a)
  }

  function Do(u: Setup, s: Receiver, e: Action): Receiver
    requires Can(s, e)
  {
    match e
    case Control(f, ok) => TakeControl(s, f, ok)
    case Negotiate(id, a) => DoNegotiate(s, id, a)
    case Peer(id, a) => DoPeer(u, s, id, a)
    case Call(a) => DoCall(s, a)
    case Hold(a) => DoHold(u, s, a)
  }

  ghost predicate Next(u: Setup, s: Receiver, s': Receiver) { exists e :: Can(s, e) && s' == Do(u, s, e) }

  /** A run of the receiver against any sender and any environment. */
  ghost predicate IsRun(u: Setup, run: seq<Receiver>) {
    && run != [] && (exists contents, hasPath :: run[0] == FreshReceiver(contents, hasPath))
    && forall k :: 0 <= k < |run| - 1 ==> Next(u, run[k], run[k + 1])
  }
}
