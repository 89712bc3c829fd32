/** What every step of a whole transfer keeps: the link between what was sent and what was written. */
module TransferProofs {
  import opened Bytes
  import opened Frames
  import opened Pieces
  import opened Coders
  import opened CoreSpec
  import opened Transfer
  import opened Coverage
  import P = Pipeline
  import R = MultiReceiver
  import HP = HandshakeProofs
  import PP = PipelineProofs
  import RP = ReceiverProofs

  // ---- The invariant ----

  ghost predicate PeersOk(p: Plan, s: System)
    requires |p.file| < TWO64
  {
    && HP.ShapeOk(p.n, s.snd) && HP.LogOk(Announced(p), s.snd, s.ctrl) && s.routed <= |s.ctrl|
    && HP.NegsMatch(s.snd, s.rcv.negs, s.routed) && HP.FlowOk(p.n, s.snd, s.rcv.answers, s.heard)
  }

  /** METADATA is the sender's, and comes before everything else the control loop handles. */
  ghost predicate MetaOk(p: Plan, s: System)
    requires |p.file| < TWO64
  {
    && (s.rcv.out.meta.Some? ==> s.rcv.out.meta == Some(Announced(p)))
    && (s.routed == 0 ==> s.rcv.out.meta.None?)
    && (s.routed > 0 && s.rcv.routing ==> s.rcv.out.meta.Some?)
    && (s.rcv.negs != map[] ==> s.rcv.out.sized)
  }

  ghost predicate ShapeOk(p: Plan, s: System) { |s.taken| == |s.wrote| == |s.counted| == |s.pipe.sent| == p.n }

  /** Where a frame loop is, by how many frames of its log it has taken, written and counted. */
  predicate TurnMatches(file: bytes, log: seq<Frame>, t: R.Turn, taken: nat, wrote: nat, counted: nat)
    requires taken <= |log|
  {
    match t
    case Idle => wrote == taken && counted == taken
    case Counted(_) => wrote == taken && counted == taken
    case Checked(offset, payload) =>
      && taken > 0 && wrote == counted == taken - 1
      && log[taken - 1].Data? && log[taken - 1].offset == offset < |file|
      && payload == P.PieceAt(file, offset)
    case Wrote(len) =>
      && taken > 0 && wrote == taken && counted == taken - 1
      && log[taken - 1].Data? && len == PieceLen(|file|, log[taken - 1].offset)
    case Stopped => true
  }

  predicate CursorOk(p: Plan, r: R.Receiver, log: seq<Frame>, i: byte, taken: nat, wrote: nat, counted: nat) {
    && counted <= wrote <= taken <= |log|
    && if i in r.handlers then
         && TurnMatches(p.file, log, r.handlers[i].turn, taken, wrote, counted)
         && (r.gate.cleanups == 0 ==> r.handlers[i].decoder == p.coder.Zstd?)
       else taken == 0
  }

  ghost predicate CursorsOk(p: Plan, s: System)
    requires ShapeOk(p, s)
  {
    forall i: byte :: i < p.n ==> CursorOk(p, s.rcv, s.pipe.sent[i], i, s.taken[i], s.wrote[i], s.counted[i])
  }

  ghost predicate SumOk(p: Plan, s: System)
    requires ShapeOk(p, s)
  {
    && Fits(s.pipe.sent, s.counted) && Fits(s.pipe.sent, s.wrote)
    && s.rcv.out.bytesWritten == SumTo(s.pipe.sent, s.counted, p.n, |p.file|)
  }

  ghost predicate SinkOk(p: Plan, s: System)
    requires ShapeOk(p, s)
  {
    forall i, j :: 0 <= i < p.n && 0 <= j < s.wrote[i] && j < |s.pipe.sent[i]| ==>
      Landed(p.file, s.rcv.out.sink, s.pipe.sent[i][j])
  }

  predicate Enough(p: Plan, o: R.Output) { o.meta.Some? && o.bytesWritten >= |p.file| && o.sized }

  ghost predicate FlagsOk(p: Plan, r: R.Receiver) {
    && (r.out.allBytes ==> Enough(p, r.out))
    && (forall id :: id in r.handlers && r.handlers[id].turn == R.Counted(true) ==> Enough(p, r.out))
    && (forall k :: 0 <= k < |r.callers.verifiers| && (r.callers.verifiers[k].Passed? || r.callers.verifiers[k].Entering?) ==>
          r.out.allBytes)
    && (RP.Clean(r.gate) ==> r.out.allBytes)
    && (RP.Clean(r.gate) ==> r.gate.hashed <= p.file)
  }

  /** Nobody has reported or is about to report a violation of the protocol. */
  ghost predicate Blameless(r: R.Receiver) {
    !r.protocolError && forall e :: e in r.callers.fails ==> !R.BlamesSender(e)
  }

  ghost predicate DataOk(p: Plan, s: System)
    requires ShapeOk(p, s)
  {
    CursorsOk(p, s) && SumOk(p, s) && SinkOk(p, s) && FlagsOk(p, s.rcv) && Blameless(s.rcv)
  }

  predicate Healthy(s: System) { s.rcv.gate.result.None? }

  ghost predicate Inv(p: Plan, s: System) {
    && ValidPlan(p) && ShapeOk(p, s)
    && RP.Inv(Setup(p), s.rcv) && PP.Inv(PipeConfig(p), s.pipe)
    && PeersOk(p, s) && MetaOk(p, s)
    && (if Healthy(s) then DataOk(p, s) else !R.BlamesSender(s.rcv.gate.result.value))
  }

  // ---- Once all bytes have been counted ----

  /** Everything is on the wire, taken and written, and the output is the file. */
  ghost predicate Whole(p: Plan, s: System)
    requires ShapeOk(p, s)
  {
    && PP.OnTheWire(PipeConfig(p), s.pipe) == |p.file|
    && (forall i :: 0 <= i < p.n ==> s.counted[i] == s.wrote[i] == s.taken[i] == |s.pipe.sent[i]|)
    && s.rcv.out.sink == p.file
  }

  lemma AllCounted(p: Plan, s: System)
    requires Inv(p, s) && Healthy(s) && Enough(p, s.rcv.out)
    ensures Whole(p, s)
  {
    var c := PipeConfig(p);
    forall i | 0 <= i < p.n ensures AllCarry(|p.file|, s.pipe.sent[i]) { FramesCarry(c, s.pipe, i); }
    WireBounded(c, s.pipe);
    SumBelow(s.pipe.sent, s.counted, p.n, |p.file|);
    CountsAreFull(p, s);
    forall o: nat | OnGrid(o) && o < |p.file| ensures PP.SentCount(s.pipe.sent, o) == 1 {
      WireHoldsEveryPiece(c, s.pipe, o);
    }
    assert |s.rcv.out.sink| == |p.file|;
    hide PP.Inv, RP.Inv, PeersOk, PP.SentCount;
    CoveredIsEqual(p.file, s.rcv.out.sink, s.pipe.sent);
  }

  lemma CountsAreFull(p: Plan, s: System)
    requires ShapeOk(p, s) && p.n <= 0x100 && CursorsOk(p, s)
    requires forall i :: 0 <= i < p.n ==> s.counted[i] == |s.pipe.sent[i]|
    ensures forall i :: 0 <= i < p.n ==> s.counted[i] == s.wrote[i] == s.taken[i] == |s.pipe.sent[i]|
  {
    forall i | 0 <= i < p.n ensures s.counted[i] == s.wrote[i] == s.taken[i] == |s.pipe.sent[i]| {
      var b: byte := i;
      assert CursorOk(p, s.rcv, s.pipe.sent[b], b, s.taken[b], s.wrote[b], s.counted[b]);
    }
  }
}
