/** Concrete runs that show where the receiver's guarantees end. */
module ShutdownRuns {
  import opened Bytes
  import opened Frames
  import opened Coders
  import opened CoreSpec
  import opened MultiReceiver

  ghost predicate Reaches(u: Setup, s: Receiver) { exists run :: IsRun(u, run) && run[|run| - 1] == s }

  lemma Begin(u: Setup, contents: bytes, hasPath: bool)
    ensures Reaches(u, FreshReceiver(contents, hasPath))
  {
    assert IsRun(u, [FreshReceiver(contents, hasPath)]);
  }

  lemma Extend(u: Setup, s: Receiver, e: Action)
    requires Reaches(u, s) && Can(s, e)
    ensures Reaches(u, Do(u, s, e))
  {
    hide Do, Can;
    var run :| IsRun(u, run) && run[|run| - 1] == s;
    var next := run + [Do(u, s, e)];
    forall k | 0 <= k < |next| - 1 ensures Next(u, next[k], next[k + 1]) {
      if k < |run| - 1 { assert Next(u, run[k], run[k + 1]); }
    }
    assert IsRun(u, next);
  }

  // ---- A session that stays open ----

  const NEW_NEG: Neg := Neg([], Building, 0, BeforeSweep, BeforeSweep)

  /** A failed receiver with the sweep done but done still open, and a negotiator that has not joined. */
  function LeakBase(n: Neg): Receiver {
    Receiver(Output(None, [], false, 0, false), DoneGate(Held(Discarding), 0, 1, Some(ClosedEarly), true, false, false, []),
             Callers(multiset{}, []), true, false, map[0 := n], map[], [], false)
  }

  lemma LeakStart(u: Setup)
    ensures Reaches(u, LeakBase(NEW_NEG))
  {
    var s0 := FreshReceiver([], false);
    Begin(u, [], false);
    Extend(u, s0, Control(Offer(0, []), true));
    var s1 := s0.(negs := map[0 := NEW_NEG]);
    assert Do(u, s0, Control(Offer(0, []), true)) == s1;
    Extend(u, s1, Call(ControlClosed));
    var s2 := s1.(callers := Callers(multiset{ClosedEarly}, []));
    assert Do(u, s1, Call(ControlClosed)) == s2;
    Extend(u, s2, Call(EnterFail(ClosedEarly)));
    var s3 := s1.(gate := s1.gate.(at := Held(FailSweep), result := Some(ClosedEarly)));
    assert Do(u, s2, Call(EnterFail(ClosedEarly))) == s3;
    Extend(u, s3, Hold(Sweep));
    assert Do(u, s3, Hold(Sweep)) == LeakBase(NEW_NEG);
  }

  /** A new negotiator builds its session, joins the map and accepts the offer. */
  lemma JoinAndAccept(u: Setup, s: Receiver)
    requires Reaches(u, s) && s.negs == map[0 := NEW_NEG]
    ensures Reaches(u, s.(negs := map[0 := Neg([], Accepted([]), 0, Now(s.gate), BeforeSweep)]))
  {
    NegMoves(u, s, NEW_NEG, Build(true));
    var built := NEW_NEG.(phase := Built);
    NegMoves(u, s.(negs := map[0 := built]), built, Join);
    var joined := Neg([], Joined, 0, Now(s.gate), BeforeSweep);
    NegMoves(u, s.(negs := map[0 := joined]), joined, Accept([]));
  }

  lemma NegMoves(u: Setup, s: Receiver, n: Neg, a: NegAct)
    requires Reaches(u, s) && s.negs == map[0 := n] && CanNegotiate(s.gate, n, a)
    requires a == Build(true) || a.Join? || a.Accept? || a.Check?
    ensures Reaches(u, s.(negs := map[0 := NegStep(s.gate, n, a, 0)]))
  {
    Extend(u, s, Negotiate(0, a));
    assert Do(u, s, Negotiate(0, a)) == s.(negs := map[0 := NegStep(s.gate, n, a, 0)]);
  }

  lemma CheckAndAnswer(u: Setup, s: Receiver, n: Neg)
    requires Reaches(u, s) && s.negs == map[0 := n] && n.phase == Accepted([]) && s.answers == []
             && s.gate.doneCloses == 0
    ensures Reaches(u, s.(negs := map[0 := n.(phase := Answered([], 0), checkedAt := Now(s.gate))], answers := [Answer(0, [])]))
  {
    NegMoves(u, s, n, Check(false));
    var s1 := s.(negs := map[0 := n.(phase := Cleared([]), checkedAt := Now(s.gate))]);
    Extend(u, s1, Negotiate(0, SendAnswer(true)));
    assert Do(u, s1, Negotiate(0, SendAnswer(true)))
        == s.(negs := map[0 := n.(phase := Answered([], 0), checkedAt := Now(s.gate))], answers := [Answer(0, [])]);
  }

  /** abortFile and close(done). */
  lemma DiscardAndAnnounce(u: Setup, s: Receiver)
    requires Reaches(u, s) && s.gate.at == Held(Discarding)
    ensures Reaches(u, s.(gate := s.gate.(fileOpen := false, removed := s.gate.hasPath, doneCloses := s.gate.doneCloses + 1,
                                          at := Held(Releasing))))
  {
    Extend(u, s, Hold(Discard));
    var s1 := s.(gate := s.gate.(fileOpen := false, at := Held(Removing)));
    assert Do(u, s, Hold(Discard)) == s1;
    Extend(u, s1, Hold(Remove));
    var s2 := s.(gate := s.gate.(fileOpen := false, removed := s.gate.hasPath, at := Held(Announcing)));
    assert Do(u, s1, Hold(Remove)) == s2;
    Extend(u, s2, Hold(Announce));
  }

  /** A peer that joins between the sweep and the close of done stays open after its negotiator has succeeded. */
  lemma SessionLeaks(u: Setup)
    ensures exists s :: Reaches(u, s) && s.gate.doneCloses == 1 && 0 in s.negs
                        && s.negs[0].phase.Answered? && s.negs[0].closes == 0
  {
    LeakStart(u);
    JoinAndAccept(u, LeakBase(NEW_NEG));
    var n := Neg([], Accepted([]), 0, AfterSweep, BeforeSweep);
    assert LeakBase(NEW_NEG).(negs := map[0 := n]) == LeakBase(n);
    CheckAndAnswer(u, LeakBase(n), n);
    var s := LeakBase(n).(negs := map[0 := n.(phase := Answered([], 0), checkedAt := AfterSweep)], answers := [Answer(0, [])]);
    DiscardAndAnnounce(u, s);
  }

  // ---- Frames that arrive while the file is verified ----

  function OneByte(u: Setup): Metadata { Metadata(PROTOCOL_VERSION, CODEC_NONE, 1, u.hash([0])) }

  /** One data peer, which joined before any sweep, and METADATA for a one-byte file. */
  function Base(u: Setup, sink: bytes, written: u64, all: bool, g: DoneGate, c: Callers, seen: bool, t: Turn): Receiver
  {
    Receiver(Output(Some(OneByte(u)), sink, true, written, all), g, c, true, seen,
             map[0 := Neg([], Accepted([]), g.cleanups, BeforeSweep, BeforeSweep)], map[0 := Handler(false, t)], [], false)
  }

  const OPEN_GATE: DoneGate := DoneGate(Free, 0, 0, None, true, false, false, [])
  const NO_CALLERS: Callers := Callers(multiset{}, [])

  lemma PeerInstalled(u: Setup)
    ensures Reaches(u, Base(u, [0], 0, false, OPEN_GATE, NO_CALLERS, false, Idle))
  {
    var s0 := FreshReceiver([0], false);
    Begin(u, [0], false);
    Extend(u, s0, Control(Meta(OneByte(u)), true));
    var s1 := s0.(out := Output(Some(OneByte(u)), [0], true, 0, false));
    assert Do(u, s0, Control(Meta(OneByte(u)), true)) == s1;
    Extend(u, s1, Control(Offer(0, []), true));
    var s2 := s1.(negs := map[0 := NEW_NEG]);
    assert Do(u, s1, Control(Offer(0, []), true)) == s2;
    JoinAndAccept(u, s2);
    var s3 := s1.(negs := map[0 := Neg([], Accepted([]), 0, BeforeSweep, BeforeSweep)]);
    Extend(u, s3, Peer(0, Install(true)));
    assert Do(u, s3, Peer(0, Install(true))) == Base(u, [0], 0, false, OPEN_GATE, NO_CALLERS, false, Idle);
  }

  /** One DATA frame with the single byte b is written, whatever the gate's holder is doing to an open file. */
  lemma ByteWritten(u: Setup, sink: bytes, b: byte, written: u64, all: bool, g: DoneGate, c: Callers, seen: bool)
    requires |sink| == 1 && g.fileOpen && Reaches(u, Base(u, sink, written, all, g, c, seen, Idle))
    ensures Reaches(u, Base(u, [b], written, all, g, c, seen, Wrote(1)))
  {
    var s := Base(u, sink, written, all, g, c, seen, Idle);
    Extend(u, s, Peer(0, Deliver(Data(0, [b]))));
    var s1 := Base(u, sink, written, all, g, c, seen, Checked(0, [b]));
    assert Do(u, s, Peer(0, Deliver(Data(0, [b])))) == s1;
    Extend(u, s1, Peer(0, Write(Written)));
    assert PutAt(sink, 0, [b]) == [b];
    assert Do(u, s1, Peer(0, Write(Written))) == Base(u, [b], written, all, g, c, seen, Wrote(1));
  }

  /** All bytes have arrived and TRANSFER_COMPLETE has been handled; verifyAndClose has not started yet. */
  lemma AllArrived(u: Setup)
    ensures Reaches(u, Base(u, [0], 1, true, OPEN_GATE, Callers(multiset{}, [Started]), true, Idle))
  {
    PeerInstalled(u);
    ByteWritten(u, [0], 0, 0, false, OPEN_GATE, NO_CALLERS, false);
    var s := Base(u, [0], 0, false, OPEN_GATE, NO_CALLERS, false, Wrote(1));
    Extend(u, s, Peer(0, Count));
    var s1 := Base(u, [0], 1, false, OPEN_GATE, NO_CALLERS, false, Counted(true));
    assert Do(u, s, Peer(0, Count)) == s1;
    Extend(u, s1, Peer(0, Signal));
    var s2 := Base(u, [0], 1, true, OPEN_GATE, NO_CALLERS, false, Idle);
    assert Do(u, s1, Peer(0, Signal)) == s2;
    Extend(u, s2, Control(Complete, true));
    assert Do(u, s2, Control(Complete, true)) == Base(u, [0], 1, true, OPEN_GATE, Callers(multiset{}, [Started]), true, Idle);
  }

  /**
   * Although every byte has arrived and TRANSFER_COMPLETE has been handled, a close of the control
   * channel fails the transfer when it comes before verifyAndClose has entered the gate.
   */
  lemma CloseAfterCompleteCanFail(u: Setup)
    ensures exists s :: Reaches(u, s) && s.completeSeen && s.out.allBytes && s.gate.result == Some(ClosedEarly)
  {
    AllArrived(u);
    var c := Callers(multiset{}, [Started]);
    var s := Base(u, [0], 1, true, OPEN_GATE, c, true, Idle);
    Extend(u, s, Call(ControlClosed));
    var s1 := s.(callers := Callers(multiset{ClosedEarly}, [Started]));
    assert Do(u, s, Call(ControlClosed)) == s1;
    Extend(u, s1, Call(EnterFail(ClosedEarly)));
    var s2 := Do(u, s1, Call(EnterFail(ClosedEarly)));
    assert s2.completeSeen && s2.out.allBytes && s2.gate.result == Some(ClosedEarly);
  }

  const HASHING: DoneGate := DoneGate(Held(Hashing), 0, 1, None, true, false, false, [])
  const DONE_CALLERS: Callers := Callers(multiset{}, [Returned])

  lemma VerifierEnters(u: Setup)
    ensures Reaches(u, Base(u, [0], 1, true, OPEN_GATE.(at := Held(VerifySweep)), DONE_CALLERS, true, Idle))
  {
    AllArrived(u);
    var s := Base(u, [0], 1, true, OPEN_GATE, Callers(multiset{}, [Started]), true, Idle);
    Extend(u, s, Call(Verify(0, Start)));
    var s1 := s.(callers := Callers(multiset{}, [Waiting]));
    assert Do(u, s, Call(Verify(0, Start))) == s1;
    Extend(u, s1, Call(Verify(0, Pass)));
    var s2 := s.(callers := Callers(multiset{}, [Passed]));
    assert Do(u, s1, Call(Verify(0, Pass))) == s2;
    Extend(u, s2, Call(Verify(0, Compare)));
    var s3 := s.(callers := Callers(multiset{}, [Entering]));
    assert Do(u, s2, Call(Verify(0, Compare))) == s3;
    Extend(u, s3, Call(Verify(0, Enter)));
    assert Do(u, s3, Call(Verify(0, Enter)))
        == Base(u, [0], 1, true, OPEN_GATE.(at := Held(VerifySweep)), DONE_CALLERS, true, Idle);
  }

  lemma FileReadBack(u: Setup)
    ensures Reaches(u, Base(u, [0], 1, true, HASHING.(hashed := [0]), DONE_CALLERS, true, Idle))
  {
    VerifierEnters(u);
    var s := Base(u, [0], 1, true, OPEN_GATE.(at := Held(VerifySweep)), DONE_CALLERS, true, Idle);
    Extend(u, s, Hold(Sweep));
    var s1 := Base(u, [0], 1, true, HASHING.(at := Held(Syncing)), DONE_CALLERS, true, Idle);
    assert Do(u, s, Hold(Sweep)) == s1;
    Extend(u, s1, Hold(Sync(true)));
    var s2 := Base(u, [0], 1, true, HASHING, DONE_CALLERS, true, Idle);
    assert Do(u, s1, Hold(Sync(true))) == s2;
    Extend(u, s2, Hold(ReadBlock(true)));
    assert Do(u, s2, Hold(ReadBlock(true))) == Base(u, [0], 1, true, HASHING.(hashed := [0]), DONE_CALLERS, true, Idle);
  }

  /**
   * A frame written after the file was read back and before it is closed: the result is nil, the file
   * is kept, and its digest is not the announced one. A dishonest sender can do this with any byte
   * that changes the digest.
   */
  lemma LateWriteEscapesVerification(u: Setup, b: byte)
    requires u.hash([b]) != u.hash([0])
    ensures exists s :: Reaches(u, s) && s.gate.doneCloses == 1 && s.gate.result.None? && s.out.meta.Some?
                        && u.hash(s.out.sink) != s.out.meta.value.sha256
  {
    FileReadBack(u);
    var g := HASHING.(hashed := [0]);
    ByteWritten(u, [0], b, 1, true, g, DONE_CALLERS, true);
    var s := Base(u, [b], 1, true, g, DONE_CALLERS, true, Wrote(1));
    Extend(u, s, Hold(Judge));
    var s1 := s.(gate := g.(at := Held(Keeping)));
    assert Do(u, s, Hold(Judge)) == s1;
    Extend(u, s1, Hold(Keep));
    var s2 := s.(gate := g.(fileOpen := false, at := Held(Announcing)));
    assert Do(u, s1, Hold(Keep)) == s2;
    Extend(u, s2, Hold(Announce));
    var s3 := Do(u, s2, Hold(Announce));
    assert s3.gate.doneCloses == 1 && s3.gate.result.None? && s3.out.sink == [b];
  }
}
