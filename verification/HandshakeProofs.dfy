/** What every step of a transfer keeps about offers, negotiations and answers. */
module HandshakeProofs {
  import opened Bytes
  import opened Frames
  import H = Handshake
  import R = MultiReceiver

  // ---- The control channel ----

  predicate Ended(s: H.Stage) { s.Aborting? || s.Stopped? }

  predicate Built(snd: H.Sender) { snd.offerers != [] }

  predicate ShapeOk(n: nat, snd: H.Sender) {
    if Built(snd) then |snd.offerers| == |snd.accepted| == |snd.isOpen| == n && !snd.stage.Opening? && !snd.stage.Building?
    else snd.accepted == [] && snd.waiting == map[] && (snd.stage.Opening? || snd.stage.Building? || Ended(snd.stage))
  }

  /** Frame k of the control channel: METADATA only first, every offer from the routine of its own id. */
  predicate CtrlOk(m: Metadata, snd: H.Sender, k: nat, f: Frame) {
    match f
    case Meta(m') => k == 0 && m' == m
    case Offer(id, sdp) => k > 0 && id < |snd.offerers| && snd.offerers[id] == H.Offered(sdp, k)
    case Complete => k > 0
    case Abort(_) => true
    case _ => false
  }

  ghost predicate LogOk(m: Metadata, snd: H.Sender, ctrl: seq<Frame>) {
    && (snd.stage.Opening? ==> ctrl == [])
    && (snd.stage.Building? || Built(snd) ==> ctrl != [] && ctrl[0] == Meta(m))
    && (forall k :: 0 <= k < |ctrl| ==> CtrlOk(m, snd, k, ctrl[k]))
    && (forall i :: 0 <= i < |snd.offerers| && snd.offerers[i].Offered? ==>
          snd.offerers[i].pos < |ctrl| && i < 0x100 && ctrl[snd.offerers[i].pos] == Offer(i, snd.offerers[i].sdp))
  }

  /** An offering routine that has sent its offer does nothing more. */
  predicate OffersStay(snd: H.Sender, snd': H.Sender) {
    |snd.offerers| <= |snd'.offerers|
    && forall i :: 0 <= i < |snd.offerers| && snd.offerers[i].Offered? ==> snd'.offerers[i] == snd.offerers[i]
  }

  lemma SendShape(n: nat, snd: H.Sender, e: H.Step, sent: nat)
    requires n > 0 && ShapeOk(n, snd) && H.Can(snd, e)
    ensures ShapeOk(n, H.Do(n, snd, e, sent)) && OffersStay(snd, H.Do(n, snd, e, sent))
  {
    hide H.PeersById;
  }

  lemma SendLog(n: nat, m: Metadata, snd: H.Sender, e: H.Step, ctrl: seq<Frame>)
    requires 0 < n <= 0x100 && ShapeOk(n, snd) && LogOk(m, snd, ctrl) && H.Can(snd, e)
    ensures LogOk(m, H.Do(n, snd, e, |ctrl|), ctrl + H.Sends(m, snd, e))
  {
    hide H.PeersById, H.Do, H.Sends, H.Can, CtrlOk, ShapeOk, OffersStay;
    var snd', more := H.Do(n, snd, e, |ctrl|), H.Sends(m, snd, e);
    SendShape(n, snd, e, |ctrl|);
    SendHead(n, m, snd, e, ctrl);
    SendOffers(n, m, snd, e, ctrl);
    forall k | 0 <= k < |ctrl + more| ensures CtrlOk(m, snd', k, (ctrl + more)[k]) {
      if k < |ctrl| { CtrlStays(m, snd, snd', k, ctrl[k]); } else { NewCtrlOk(n, m, snd, e, ctrl); }
    }
  }

  lemma SendHead(n: nat, m: Metadata, snd: H.Sender, e: H.Step, ctrl: seq<Frame>)
    requires 0 < n <= 0x100 && ShapeOk(n, snd) && LogOk(m, snd, ctrl) && H.Can(snd, e)
    ensures var snd', all := H.Do(n, snd, e, |ctrl|), ctrl + H.Sends(m, snd, e);
            && (snd'.stage.Opening? ==> all == [])
            && (snd'.stage.Building? || Built(snd') ==> all != [] && all[0] == Meta(m))
  {
    hide H.PeersById, CtrlOk;
  }

  lemma SendOffers(n: nat, m: Metadata, snd: H.Sender, e: H.Step, ctrl: seq<Frame>)
    requires 0 < n <= 0x100 && ShapeOk(n, snd) && LogOk(m, snd, ctrl) && H.Can(snd, e)
    ensures var snd', all := H.Do(n, snd, e, |ctrl|), ctrl + H.Sends(m, snd, e);
            forall i :: 0 <= i < |snd'.offerers| && snd'.offerers[i].Offered? ==>
              snd'.offerers[i].pos < |all| && i < 0x100 && all[snd'.offerers[i].pos] == Offer(i, snd'.offerers[i].sdp)
  {
    hide H.PeersById, CtrlOk;
  }

  lemma CtrlStays(m: Metadata, snd: H.Sender, snd': H.Sender, k: nat, f: Frame)
    requires CtrlOk(m, snd, k, f) && OffersStay(snd, snd')
    ensures CtrlOk(m, snd', k, f)
  {
  }

  lemma NewCtrlOk(n: nat, m: Metadata, snd: H.Sender, e: H.Step, ctrl: seq<Frame>)
    requires 0 < n <= 0x100 && ShapeOk(n, snd) && LogOk(m, snd, ctrl) && H.Can(snd, e) && H.Sends(m, snd, e) != []
    ensures |H.Sends(m, snd, e)| == 1 && CtrlOk(m, H.Do(n, snd, e, |ctrl|), |ctrl|, H.Sends(m, snd, e)[0])
  {
    hide H.PeersById;
  }

  /** The pipeline's closing frame leaves the rest of the log alone. */
  lemma LogGrows(m: Metadata, snd: H.Sender, ctrl: seq<Frame>, f: Frame)
    requires LogOk(m, snd, ctrl) && Built(snd) && (f.Complete? || f.Abort?)
    ensures LogOk(m, snd, ctrl + [f])
  {
  }

  // ---- What the sender remembers ----

  /**
   * The histories are true: an answer for a peer that is not waiting and a full queue leave their mark, and
   * every answer that a peer accepts, and nothing else, is added to what it has accepted.
   */
  lemma HistoriesAreTrue(n: nat, snd: H.Sender, e: H.Step, sent: nat)
    requires H.Can(snd, e)
    ensures var d := H.Do(n, snd, e, sent);
            && d.overflow == snd.overflow
            && (d.unknown <==> snd.unknown || (e.TakeAnswer? && snd.queue[0].0 !in snd.waiting))
            && (e.TakeAnswer? && e.ok && snd.queue[0].0 in snd.waiting ==>
                  var i := snd.waiting[snd.queue[0].0];
                  d.accepted == snd.accepted[i := snd.accepted[i] + [snd.queue[0].1]])
            && (e.TakeAnswer? && (!e.ok || snd.queue[0].0 !in snd.waiting) ==> d.accepted == snd.accepted)
            && (!e.TakeAnswer? && !e.BuildPeers? ==> d.accepted == snd.accepted)
  {
    hide H.PeersById;
  }

  /** The control handler queues an answer exactly while there is room for it, and marks the overflow otherwise. */
  lemma HearMeans(n: nat, snd: H.Sender, id: byte, sdp: bytes)
    ensures var d := H.Hear(n, snd, id, sdp);
            && (|snd.queue| < n ==> d == snd.(queue := snd.queue + [(id, sdp)]))
            && (|snd.queue| >= n ==> d == snd.(overflow := true))
  {
  }

  // ---- Negotiations ----

  /** The receiver negotiates only what has been offered, once, in the order of the control channel. */
  ghost predicate NegsMatch(snd: H.Sender, negs: map<byte, R.Neg>, routed: nat) {
    forall id :: id in negs ==>
      && id < |snd.offerers| && snd.offerers[id].Offered? && snd.offerers[id].pos < routed
      && negs[id].offer == snd.offerers[id].sdp
  }

  lemma NegsStay(snd: H.Sender, snd': H.Sender, negs: map<byte, R.Neg>, routed: nat)
    requires NegsMatch(snd, negs, routed) && OffersStay(snd, snd')
    ensures NegsMatch(snd', negs, routed)
  {
  }

  /** The next offer on the control channel is for a peer without a negotiation. */
  lemma OfferIsFresh(m: Metadata, snd: H.Sender, ctrl: seq<Frame>, negs: map<byte, R.Neg>, routed: nat)
    requires LogOk(m, snd, ctrl) && NegsMatch(snd, negs, routed) && routed < |ctrl| && ctrl[routed].Offer?
    ensures ctrl[routed].id !in negs
  {
    assert CtrlOk(m, snd, routed, ctrl[routed]);
  }

  // ---- Answers ----

  /** All answers come from different peers. */
  ghost predicate Distinct(n: nat, answers: seq<Frame>) {
    && (forall k :: 0 <= k < |answers| ==> answers[k].Answer? && answers[k].id < n)
    && (forall j, k :: 0 <= j < k < |answers| ==> answers[j].id != answers[k].id)
  }

  lemma {:induction false} Pigeonhole(n: nat, ids: seq<nat>)
    requires forall k :: 0 <= k < |ids| ==> ids[k] < n
    requires forall j, k :: 0 <= j < k < |ids| ==> ids[j] != ids[k]
    ensures |ids| <= n
  {
    if ids != [] {
      assert ids[0] < n;
      if i :| 0 <= i < |ids| && ids[i] == n - 1 {
        Pigeonhole(n - 1, ids[..i] + ids[i + 1..]);
      } else {
        Pigeonhole(n - 1, ids);
      }
    }
  }

  lemma FewAnswers(n: nat, answers: seq<Frame>)
    requires Distinct(n, answers)
    ensures |answers| <= n
  {
    Pigeonhole(n, seq(|answers|, (k: nat) requires k < |answers| && answers[k].Answer? => answers[k].id));
  }

  /** How many answers the coordinating routine has taken from its queue. */
  function Used(snd: H.Sender, heard: nat): int { heard - |snd.queue| }

  /** Answer k has been given to its peer, unless it is the last and ended the handshake. */
  predicate Applied(snd: H.Sender, f: Frame, last: bool)
    requires f.Answer?
  {
    f.id < |snd.accepted| && (snd.accepted[f.id] == [f.sdp] || (last && Ended(snd.stage)))
  }

  predicate Queued(q: (byte, bytes), f: Frame) { f.Answer? && q == (f.id, f.sdp) }

  ghost predicate QueueOk(snd: H.Sender, answers: seq<Frame>, heard: nat) {
    && 0 <= Used(snd, heard) && heard <= |answers|
    && forall k :: 0 <= k < |snd.queue| ==> Queued(snd.queue[k], answers[Used(snd, heard) + k])
  }

  /** Whether one of the first used answers is peer id's. */
  ghost predicate AnsweredBy(answers: seq<Frame>, used: nat, id: byte)
    requires used <= |answers|
  {
    exists k :: 0 <= k < used && answers[k].Answer? && answers[k].id == id
  }

  ghost predicate WaitingOk(n: nat, snd: H.Sender, answers: seq<Frame>, used: nat)
    requires used <= |answers| && Distinct(n, answers)
  {
    && (used > 0 ==> Built(snd))
    && (Built(snd) ==> |snd.waiting.Keys| + used == n)
    && (Built(snd) ==> forall id: byte :: id in snd.waiting <==> id < n && !AnsweredBy(answers, used, id))
    && (forall id :: id in snd.waiting ==> snd.waiting[id] == id && id < |snd.accepted| && snd.accepted[id] == [])
    && (forall k :: 0 <= k < used ==> Applied(snd, answers[k], k == used - 1))
  }

  predicate AllTaken(snd: H.Sender) {
    snd.stage.Joining? || snd.stage.Connecting? || snd.stage.Running? ==> snd.waiting == map[]
  }

  predicate OpenOk(n: nat, snd: H.Sender) {
    && (snd.stage.Connecting? ==> |snd.isOpen| == n && snd.stage.k <= n && forall i :: 0 <= i < snd.stage.k ==> snd.isOpen[i])
    && (snd.stage.Running? ==> |snd.isOpen| == n && forall i :: 0 <= i < n ==> snd.isOpen[i])
  }

  /** From the receiver's answers to the peers that accept them: nothing overflows, strays or repeats. */
  ghost predicate FlowOk(n: nat, snd: H.Sender, answers: seq<Frame>, heard: nat) {
    && Distinct(n, answers) && QueueOk(snd, answers, heard) && WaitingOk(n, snd, answers, Used(snd, heard))
    && AllTaken(snd) && OpenOk(n, snd) && !snd.overflow && !snd.unknown
  }

  lemma HearFlows(n: nat, snd: H.Sender, answers: seq<Frame>, heard: nat)
    requires FlowOk(n, snd, answers, heard) && heard < |answers|
    ensures FlowOk(n, H.Hear(n, snd, answers[heard].id, answers[heard].sdp), answers, heard + 1)
  {
    var snd' := H.Hear(n, snd, answers[heard].id, answers[heard].sdp);
    hide Distinct, WaitingOk, QueueOk;
    FewAnswers(n, answers);
    UsedFew(snd, answers, heard);
    HeardQueue(n, snd, answers, heard);
    WaitingSame(n, snd, snd', answers, Used(snd, heard));
  }

  lemma UsedFew(snd: H.Sender, answers: seq<Frame>, heard: nat)
    requires QueueOk(snd, answers, heard) && heard < |answers|
    ensures 0 <= Used(snd, heard) && |snd.queue| < |answers|
  {
  }

  lemma HeardQueue(n: nat, snd: H.Sender, answers: seq<Frame>, heard: nat)
    requires QueueOk(snd, answers, heard) && heard < |answers| && answers[heard].Answer? && |snd.queue| < n
    ensures QueueOk(H.Hear(n, snd, answers[heard].id, answers[heard].sdp), answers, heard + 1)
  {
  }

  /** Who waits for an answer, and what has been accepted, stays as it is. */
  lemma WaitingSame(n: nat, snd: H.Sender, snd': H.Sender, answers: seq<Frame>, used: nat)
    requires used <= |answers| && Distinct(n, answers) && WaitingOk(n, snd, answers, used)
    requires snd'.waiting == snd.waiting && snd'.accepted == snd.accepted
    requires Built(snd') == Built(snd) && (Ended(snd.stage) ==> Ended(snd'.stage))
    ensures WaitingOk(n, snd', answers, used)
  {
    hide Built, Ended, AnsweredBy;
    forall k | 0 <= k < used ensures Applied(snd', answers[k], k == used - 1) {
      assert Applied(snd, answers[k], k == used - 1);
    }
  }

  /** A further answer changes nothing for those already taken. */
  lemma AnswersFlow(n: nat, snd: H.Sender, answers: seq<Frame>, more: seq<Frame>, heard: nat)
    requires FlowOk(n, snd, answers, heard) && Distinct(n, answers + more)
    ensures FlowOk(n, snd, answers + more, heard)
  {
    var used, all := Used(snd, heard), answers + more;
    forall id: byte ensures AnsweredBy(all, used, id) == AnsweredBy(answers, used, id) {
      if AnsweredBy(all, used, id) {
        var k :| 0 <= k < used && all[k].Answer? && all[k].id == id;
        assert answers[k].id == id;
      }
      if AnsweredBy(answers, used, id) {
        var k :| 0 <= k < used && answers[k].Answer? && answers[k].id == id;
        assert all[k].id == id;
      }
    }
    hide AnsweredBy;
    forall k | 0 <= k < used ensures Applied(snd, all[k], k == used - 1) {
      assert all[k] == answers[k];
    }
  }

  lemma SendFlows(n: nat, snd: H.Sender, e: H.Step, sent: nat, answers: seq<Frame>, heard: nat)
    requires 0 < n <= 0x100 && ShapeOk(n, snd) && FlowOk(n, snd, answers, heard) && H.Can(snd, e)
    requires !Built(snd) ==> answers == []
    ensures FlowOk(n, H.Do(n, snd, e, sent), answers, heard)
  {
    hide WaitingOk, Distinct;
    SendOpens(n, snd, e, sent);
    if e.TakeAnswer? {
      TakeAnswerFlows(n, snd, e.ok, sent, answers, heard);
    } else if e == H.BuildPeers(true) {
      BuildFlows(n, snd, sent, answers, heard);
    } else {
      OtherFlows(n, snd, e, sent, answers, heard);
    }
  }

  lemma SendOpens(n: nat, snd: H.Sender, e: H.Step, sent: nat)
    requires ShapeOk(n, snd) && OpenOk(n, snd) && AllTaken(snd) && H.Can(snd, e)
    ensures OpenOk(n, H.Do(n, snd, e, sent)) && AllTaken(H.Do(n, snd, e, sent))
  {
    hide H.PeersById;
  }

  lemma BuildFlows(n: nat, snd: H.Sender, sent: nat, answers: seq<Frame>, heard: nat)
    requires 0 < n <= 0x100 && ShapeOk(n, snd) && FlowOk(n, snd, answers, heard) && H.Can(snd, H.BuildPeers(true))
    requires answers == []
    ensures var snd' := H.Do(n, snd, H.BuildPeers(true), sent);
            QueueOk(snd', answers, heard) && WaitingOk(n, snd', answers, Used(snd', heard))
  {
    H.PeersByIdIs(n);
    hide H.PeersById;
  }

  /** Steps that touch neither the queue nor the peers' answers. */
  lemma OtherFlows(n: nat, snd: H.Sender, e: H.Step, sent: nat, answers: seq<Frame>, heard: nat)
    requires ShapeOk(n, snd) && FlowOk(n, snd, answers, heard) && H.Can(snd, e)
    requires !e.TakeAnswer? && e != H.BuildPeers(true)
    ensures var snd' := H.Do(n, snd, e, sent);
            && QueueOk(snd', answers, heard) && WaitingOk(n, snd', answers, Used(snd', heard))
            && !snd'.overflow && !snd'.unknown
  {
    hide *;
    FlowParts(n, snd, answers, heard);
    OtherFrame(n, snd, e, sent);
    QueueSame(snd, H.Do(n, snd, e, sent), answers, heard);
    WaitingSame(n, snd, H.Do(n, snd, e, sent), answers, Used(snd, heard));
  }

  lemma FlowParts(n: nat, snd: H.Sender, answers: seq<Frame>, heard: nat)
    requires FlowOk(n, snd, answers, heard)
    ensures Distinct(n, answers) && QueueOk(snd, answers, heard) && WaitingOk(n, snd, answers, Used(snd, heard))
    ensures 0 <= Used(snd, heard) <= |answers| && !snd.overflow && !snd.unknown
  {
    hide Distinct, WaitingOk, AllTaken, OpenOk;
  }

  lemma QueueSame(snd: H.Sender, snd': H.Sender, answers: seq<Frame>, heard: nat)
    requires QueueOk(snd, answers, heard) && snd'.queue == snd.queue
    ensures QueueOk(snd', answers, heard) && Used(snd', heard) == Used(snd, heard)
  {
  }

  lemma OtherFrame(n: nat, snd: H.Sender, e: H.Step, sent: nat)
    requires H.Can(snd, e) && !e.TakeAnswer? && e != H.BuildPeers(true)
    ensures var snd' := H.Do(n, snd, e, sent);
            && snd'.queue == snd.queue && snd'.waiting == snd.waiting && snd'.accepted == snd.accepted
            && Built(snd') == Built(snd) && (Ended(snd.stage) ==> Ended(snd'.stage))
            && snd'.overflow == snd.overflow && snd'.unknown == snd.unknown
  {
  }

  lemma TakeAnswerFlows(n: nat, snd: H.Sender, ok: bool, sent: nat, answers: seq<Frame>, heard: nat)
    requires ShapeOk(n, snd) && FlowOk(n, snd, answers, heard) && H.Can(snd, H.TakeAnswer(ok))
    ensures var snd' := H.Do(n, snd, H.TakeAnswer(ok), sent);
            && QueueOk(snd', answers, heard) && WaitingOk(n, snd', answers, Used(snd', heard))
            && !snd'.overflow && !snd'.unknown
  {
    var used := Used(snd, heard);
    var id := snd.queue[0].0;
    assert Queued(snd.queue[0], answers[used + 0]);
    NotYetAnswered(n, answers, used);
    assert id in snd.waiting;
    var snd' := H.Do(n, snd, H.TakeAnswer(ok), sent);
    assert snd'.waiting.Keys == snd.waiting.Keys - {id};
    forall i: byte ensures AnsweredBy(answers, used + 1, i) <==> AnsweredBy(answers, used, i) || i == id {
      OneMore(answers, used, i);
    }
    hide AnsweredBy, Distinct, LogOk;
    QueueMoves(snd, snd', answers, heard);
    AppliedOnes(n, snd, ok, sent, answers, used);
  }

  lemma NotYetAnswered(n: nat, answers: seq<Frame>, used: nat)
    requires Distinct(n, answers) && used < |answers|
    ensures !AnsweredBy(answers, used, answers[used].id)
  {
  }

  lemma OneMore(answers: seq<Frame>, used: nat, id: byte)
    requires used < |answers| && answers[used].Answer?
    ensures AnsweredBy(answers, used + 1, id) <==> AnsweredBy(answers, used, id) || id == answers[used].id
  {
    if AnsweredBy(answers, used, id) {
      var k :| 0 <= k < used && answers[k].Answer? && answers[k].id == id;
      assert 0 <= k < used + 1 && answers[k].id == id;
    }
    if id == answers[used].id { assert 0 <= used < used + 1 && answers[used].id == id; }
  }

  lemma QueueMoves(snd: H.Sender, snd': H.Sender, answers: seq<Frame>, heard: nat)
    requires QueueOk(snd, answers, heard) && snd.queue != [] && snd'.queue == snd.queue[1..]
    ensures QueueOk(snd', answers, heard)
  {
    forall k | 0 <= k < |snd'.queue| ensures Queued(snd'.queue[k], answers[Used(snd', heard) + k]) {
      assert Queued(snd.queue[k + 1], answers[Used(snd, heard) + (k + 1)]);
    }
  }

  lemma AppliedOnes(n: nat, snd: H.Sender, ok: bool, sent: nat, answers: seq<Frame>, used: nat)
    requires H.Can(snd, H.TakeAnswer(ok)) && snd.queue[0].0 in snd.waiting
    requires used < |answers| && Distinct(n, answers) && WaitingOk(n, snd, answers, used)
    requires snd.queue[0] == (answers[used].id, answers[used].sdp)
    ensures forall k :: 0 <= k < used + 1 ==> Applied(H.Do(n, snd, H.TakeAnswer(ok), sent), answers[k], k == used)
  {
    hide AnsweredBy;
    forall k | 0 <= k < used + 1 ensures Applied(H.Do(n, snd, H.TakeAnswer(ok), sent), answers[k], k == used) {
      if k < used {
        assert Applied(snd, answers[k], k == used - 1);
        assert answers[k].id != answers[used].id;
      }
    }
  }
}
