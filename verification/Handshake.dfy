/**
 * The sender's side of the peer handshake (runMulti up to the pipeline, negotiatePeers and the
 * control handler in pkg/transfer/sender/multi.go) as a step system: one offering routine a peer, the
 * coordinating routine, and the handler that queues incoming answers.
 */
module Handshake {
  import opened Bytes
  import opened Frames

  datatype Offerer =
    | Making                          // MakeOffer
    | Made(sdp: bytes)                // ADD_PEER_OFFER next
    | Offered(sdp: bytes, pos: nat)   // sent; pos counts the control frames sent before
    | Gone                            // failed, its error queued

  datatype Stage =
    | Opening                         // preTransfer: METADATA next
    | Building                        // buildDataPeers
    | Collecting                      // negotiatePeers' select loop
    | Joining                         // wg.Wait for the offering routines
    | Connecting(k: nat)              // waits for peer k's channel to open
    | Running                         // negotiatePeers returned nil
    | Aborting                        // failed; ABORT next
    | Stopped

  datatype Sender = Sender(
    stage: Stage,
    offerers: seq<Offerer>,
    errors: nat,                      // queued in errs
    waiting: map<byte, nat>,          // peers without an answer, by id
    queue: seq<(byte, bytes)>,        // answerCh
    accepted: seq<seq<bytes>>,        // per peer, every answer given to AcceptAnswer with success
    isOpen: seq<bool>,
    overflow: bool,                   // history: answerCh was full
    unknown: bool)                    // history: an answer for a peer that was not waiting

  datatype Step =
    | OpeningFails
    | SendMetadata(ok: bool)
    | BuildPeers(ok: bool)
    | Make(i: nat, sdp: bytes)
    | MakeFails(i: nat)
    | SendOffer(i: nat, ok: bool)
    | TakeAnswer(ok: bool)            // ok: AcceptAnswer succeeds
    | TakeError
    | TimeOut                         // the deadline, or a cancelled context
    | LoopEnds
    | OffersDone
    | ChannelOpens(i: nat)
    | SeeOpen
    | SendAbort(reason: bytes, ok: bool)

  /** buildDataPeers' uint8(ndx). */
  function PeerId(ndx: nat): byte { ndx % 0x100 }

  function FreshSender(): Sender { Sender(Opening, [], 0, map[], [], [], [], false, false) }

  /** The map of peers by id that negotiatePeers fills in order. */
  function PeersById(n: nat): map<byte, nat> {
    if n == 0 then map[] else PeersById(n - 1)[PeerId(n - 1) := n - 1]
  }

  predicate Has(s: Sender, i: nat) { i < |s.offerers| == |s.accepted| == |s.isOpen| }

  predicate Can(s: Sender, e: Step) {
    match e
    case OpeningFails => s.stage.Opening?
    case SendMetadata(_) => s.stage.Opening?
    case BuildPeers(_) => s.stage.Building?
    case Make(i, _) => Has(s, i) && s.offerers[i].Making?
    case MakeFails(i) => Has(s, i) && s.offerers[i].Making?
    case SendOffer(i, _) => Has(s, i) && s.offerers[i].Made?
    case TakeAnswer(_) =>
      s.stage.Collecting? && s.waiting != map[] && s.queue != []
      && (s.queue[0].0 in s.waiting ==> Has(s, s.waiting[s.queue[0].0]))
    case TakeError => s.stage.Collecting? && s.waiting != map[] && s.errors > 0
    case TimeOut => (s.stage.Collecting? && s.waiting != map[]) || s.stage.Connecting?
    case LoopEnds => s.stage.Collecting? && s.waiting == map[]
    case OffersDone => s.stage.Joining? && forall i :: 0 <= i < |s.offerers| ==> s.offerers[i].Offered? || s.offerers[i].Gone?
    case ChannelOpens(i) => Has(s, i) && s.accepted[i] != [] && !s.isOpen[i]
    case SeeOpen => s.stage.Connecting? && (s.stage.k < |s.isOpen| ==> s.isOpen[s.stage.k])
    case SendAbort(_, _) => s.stage.Aborting?
  }

  /** n is the number of connections, sent the number of control frames sent so far. */
  function Do(n: nat, s: Sender, e: Step, sent: nat): Sender
    requires Can(s, e)
  {
    match e
    case OpeningFails => s.(stage := Stopped)
    case SendMetadata(ok) => s.(stage := if ok then Building else Aborting)
    case BuildPeers(ok) =>
      if ok then s.(stage := Collecting, offerers := seq(n, _ => Making), waiting := PeersById(n),
                    accepted := seq(n, _ => []), isOpen := seq(n, _ => false))
      else s.(stage := Aborting)
    case Make(i, sdp) => s.(offerers := s.offerers[i := Made(sdp)])
    case MakeFails(i) => s.(offerers := s.offerers[i := Gone], errors := s.errors + 1)
    case SendOffer(i, ok) =>
      if ok then s.(offerers := s.offerers[i := Offered(s.offerers[i].sdp, sent)])
      else s.(offerers := s.offerers[i := Gone], errors := s.errors + 1)
    case TakeAnswer(ok) =>
      var (id, sdp) := s.queue[0];
      if id !in s.waiting then s.(stage := Aborting, queue := s.queue[1..], unknown := true)
      else if !ok then s.(stage := Aborting, queue := s.queue[1..], waiting := s.waiting - {id})
      else s.(queue := s.queue[1..], waiting := s.waiting - {id},
              accepted := s.accepted[s.waiting[id] := s.accepted[s.waiting[id]] + [sdp]])
    case TakeError => s.(stage := Aborting, errors := s.errors - 1)
    case TimeOut => s.(stage := Aborting)
    case LoopEnds => s.(stage := Joining)
    case OffersDone => s.(stage := Connecting(0))
    case ChannelOpens(i) => s.(isOpen := s.isOpen[i := true])
    case SeeOpen => s.(stage := if s.stage.k < |s.isOpen| then Connecting(s.stage.k + 1) else Running)
    case SendAbort(_, _) => s.(stage := Stopped)
  }

  /** What a step puts on the control channel. */
  function Sends(m: Metadata, s: Sender, e: Step): seq<Frame>
    requires Can(s, e)
  {
    match e
    case SendMetadata(ok) => if ok then [Meta(m)] else []
    case SendOffer(i, ok) => if ok then [Offer(PeerId(i), s.offerers[i].sdp)] else []
    case SendAbort(reason, ok) => if ok then [Abort(reason)] else []
    case _ => []
  }

  /** OnAddPeerAnswer: queue the answer, or stop when answerCh, with room for n, is full. */
  function Hear(n: nat, s: Sender, id: byte, sdp: bytes): Sender {
    if |s.queue| < n then s.(queue := s.queue + [(id, sdp)]) else s.(overflow := true)
  }

  // ---- Peer ids ----

  lemma {:induction false} PeerByIdIs(n: nat, id: byte)
    requires n <= 0x100
    ensures id in PeersById(n) <==> id < n
    ensures id < n ==> PeersById(n)[id] == id
  {
    if n > 0 {
      PeerByIdIs(n - 1, id);
    }
  }

  lemma {:induction false} PeersCount(n: nat)
    requires n <= 0x100
    ensures |PeersById(n).Keys| == n
  {
    if n > 0 {
      PeersGrow(n);
      PeersCount(n - 1);
    }
  }

  /** The n-th peer's id is new. */
  lemma PeersGrow(n: nat)
    requires 0 < n <= 0x100
    ensures |PeersById(n).Keys| == |PeersById(n - 1).Keys| + 1
  {
    hide PeersById;
    NthPeer(n);
    PeerByIdIs(n - 1, PeerId(n - 1));
    KeysGrow(PeersById(n - 1), PeerId(n - 1), n - 1);
  }

  lemma NthPeer(n: nat)
    requires n > 0
    ensures PeersById(n) == PeersById(n - 1)[PeerId(n - 1) := n - 1]
  {
  }

  lemma KeysGrow<K, V>(m: map<K, V>, key: K, value: V)
    requires key !in m
    ensures |m[key := value].Keys| == |m.Keys| + 1
  {
    assert m[key := value].Keys == m.Keys + {key};
  }

  lemma PeersByIdIs(n: nat)
    requires n <= 0x100
    ensures forall id: byte :: id in PeersById(n) <==> id < n
    ensures forall id: byte :: id < n ==> PeersById(n)[id] == id
    ensures |PeersById(n).Keys| == n
  {
    hide PeersById;
    forall id: byte ensures id in PeersById(n) <==> id < n { PeerByIdIs(n, id); }
    forall id: byte | id < n ensures PeersById(n)[id] == id { PeerByIdIs(n, id); }
    PeersCount(n);
  }

  /** The ids of n peers are distinct exactly when there are at most 256; Config.Validate allows 16. */
  lemma IdsDistinct(n: nat)
    ensures (forall i: nat, j: nat :: i < j < n ==> PeerId(i) != PeerId(j)) <==> n <= 0x100
  {
    if n > 0x100 {
      assert PeerId(0) == PeerId(0x100);
    }
  }

  // ---- The select loop ----

  /** What ends one wait of the select loop: an answer and the fate of AcceptAnswer, an error, or the deadline. */
  datatype Wake = GotAnswer(id: byte, sdp: bytes, ok: bool) | GotError | Deadline

  datatype CollectError = UnknownPeer(id: byte) | AnswerRefused(id: byte) | OfferFailed | TimedOut

  /** The first n wakes are acceptable answers from n different peers of the plan. */
  ghost predicate AllAnswer(n: nat, wakes: seq<Wake>) {
    && n <= |wakes|
    && (forall k :: 0 <= k < n ==> wakes[k].GotAnswer? && wakes[k].ok && wakes[k].id < n)
    && (forall j, k :: 0 <= j < k < n ==> wakes[j].id != wakes[k].id)
  }

  /** The loop of negotiatePeers that fills the waiting map. */
  method WaitForAll(n: nat) returns (waiting: map<byte, nat>)
    ensures waiting == PeersById(n)
  {
    waiting := map[];
    for i := 0 to n
      invariant waiting == PeersById(i)
    {
      waiting := waiting[PeerId(i) := i];
    }
  }

  /** accepted holds exactly the answers of the first k wakes, which are all acceptable. */
  ghost predicate Took(n: nat, wakes: seq<Wake>, k: nat, accepted: map<byte, bytes>)
    requires k <= |wakes|
  {
    && |accepted.Keys| == k
    && (forall j :: 0 <= j < k ==>
          && wakes[j].GotAnswer? && wakes[j].ok && wakes[j].id < n
          && wakes[j].id in accepted && accepted[wakes[j].id] == wakes[j].sdp)
    && (forall i, j :: 0 <= i < j < k ==> wakes[i].id != wakes[j].id)
    && (forall id :: id in accepted ==> Among(wakes, k, id))
  }

  /** One of the first k wakes is an answer from peer id. */
  ghost predicate Among(wakes: seq<Wake>, k: nat, id: byte)
    requires k <= |wakes|
  {
    exists j :: 0 <= j < k && wakes[j].GotAnswer? && wakes[j].id == id
  }

  lemma AmongGrows(wakes: seq<Wake>, k: nat, id: byte)
    requires k < |wakes| && (Among(wakes, k, id) || (wakes[k].GotAnswer? && wakes[k].id == id))
    ensures Among(wakes, k + 1, id)
  {
    if Among(wakes, k, id) {
      var j :| 0 <= j < k && wakes[j].GotAnswer? && wakes[j].id == id;
      assert 0 <= j < k + 1 && wakes[j].id == id;
    } else {
      assert 0 <= k < k + 1 && wakes[k].id == id;
    }
  }

  lemma TakeOne(n: nat, wakes: seq<Wake>, k: nat, accepted: map<byte, bytes>)
    requires k < |wakes| && Took(n, wakes, k, accepted)
    requires wakes[k].GotAnswer? && wakes[k].ok && wakes[k].id < n && wakes[k].id !in accepted
    ensures Took(n, wakes, k + 1, accepted[wakes[k].id := wakes[k].sdp])
  {
    hide Among;
    var id, more := wakes[k].id, accepted[wakes[k].id := wakes[k].sdp];
    KeysGrow(accepted, id, wakes[k].sdp);
    forall i | i in more ensures Among(wakes, k + 1, i) {
      AmongGrows(wakes, k, i);
    }
    forall j | 0 <= j < k + 1
      ensures wakes[j].GotAnswer? && wakes[j].ok && wakes[j].id < n
      ensures wakes[j].id in more && more[wakes[j].id] == wakes[j].sdp
      ensures j < k ==> wakes[j].id != id
    {
      assert j < k ==> wakes[j].GotAnswer?;
    }
  }

  /** A wake that is no acceptable answer, or a repeated one, spoils the whole. */
  lemma Spoiled(n: nat, wakes: seq<Wake>, k: nat, accepted: map<byte, bytes>)
    requires k <= |wakes| && k < n && Took(n, wakes, k, accepted)
    requires k == |wakes| || !wakes[k].GotAnswer? || !wakes[k].ok || wakes[k].id >= n || wakes[k].id in accepted
    ensures !AllAnswer(n, wakes)
  {
    if k < |wakes| && wakes[k].GotAnswer? && wakes[k].id in accepted {
      var j :| 0 <= j < k && wakes[j].GotAnswer? && wakes[j].id == wakes[k].id;
      assert wakes[j].id == wakes[k].id;
    }
  }

  /** One wait of the select loop: nil exactly for an acceptable answer of a peer that is waited for. */
  method Wait(n: nat, wakes: seq<Wake>, k: nat, waiting: map<byte, nat>, ghost accepted: map<byte, bytes>)
    returns (err: Option<CollectError>)
    requires k <= |wakes| && k < n && Took(n, wakes, k, accepted) && WaitsFor(n, waiting, accepted)
    ensures err.None? ==> k < |wakes| && wakes[k].GotAnswer? && wakes[k].ok && wakes[k].id in waiting
                          && wakes[k].id < n && wakes[k].id !in accepted
    ensures err.Some? ==> !AllAnswer(n, wakes)
  {
    hide Took, AllAnswer, WaitsFor;
    if k == |wakes| || wakes[k].Deadline? {
      err := Some(TimedOut);
    } else if wakes[k].GotError? {
      err := Some(OfferFailed);
    } else {
      WaitingMeans(n, waiting, accepted, wakes[k].id);
      if wakes[k].id !in waiting {
        err := Some(UnknownPeer(wakes[k].id));
      } else if !wakes[k].ok {
        err := Some(AnswerRefused(wakes[k].id));
      } else {
        return None;
      }
    }
    Spoiled(n, wakes, k, accepted);
  }

  /**
   * negotiatePeers' select loop over a given sequence of wakes (a sequence that ends leaves the
   * deadline): at most n rounds, and success exactly when the first n wakes answer for all n peers.
   */
  method CollectAnswers(n: nat, wakes: seq<Wake>)
    returns (err: Option<CollectError>, accepted: map<byte, bytes>, rounds: nat)
    requires n <= 0x100
    ensures rounds <= n && (err.None? ==> rounds == n)
    ensures err.None? <==> AllAnswer(n, wakes)
    ensures rounds <= |wakes| && Took(n, wakes, rounds, accepted)
  {
    hide PeersById, Took, AllAnswer, WaitsFor;
    var waiting := WaitForAll(n);
    AllWait(n);
    accepted, rounds := map[], 0;
    NothingTaken(n, wakes);
    while |waiting| > 0
      invariant rounds <= |wakes| && rounds + |waiting| == n
      invariant Took(n, wakes, rounds, accepted) && WaitsFor(n, waiting, accepted)
      decreases |waiting|
    {
      err := Wait(n, wakes, rounds, waiting, accepted);
      if err.Some? {
        return err, accepted, rounds;
      }
      var id, sdp := wakes[rounds].id, wakes[rounds].sdp;
      OneLess(n, waiting, accepted, id, sdp);
      TakeOne(n, wakes, rounds, accepted);
      waiting := waiting - {id};
      accepted, rounds := accepted[id := sdp], rounds + 1;
    }
    err := None;
    TookAll(n, wakes, accepted);
  }

  /** Exactly the peers without an accepted answer are waited for. */
  ghost predicate WaitsFor(n: nat, waiting: map<byte, nat>, accepted: map<byte, bytes>) {
    forall id: byte :: id in waiting <==> id < n && id !in accepted
  }

  lemma AllWait(n: nat)
    requires n <= 0x100
    ensures WaitsFor(n, PeersById(n), map[]) && |PeersById(n)| == n
  {
    hide PeersById;
    PeersByIdIs(n);
  }

  lemma WaitingMeans(n: nat, waiting: map<byte, nat>, accepted: map<byte, bytes>, id: byte)
    requires WaitsFor(n, waiting, accepted)
    ensures id in waiting <==> id < n && id !in accepted
  {
  }

  lemma OneLess(n: nat, waiting: map<byte, nat>, accepted: map<byte, bytes>, id: byte, sdp: bytes)
    requires WaitsFor(n, waiting, accepted) && id in waiting
    ensures WaitsFor(n, waiting - {id}, accepted[id := sdp]) && |waiting - {id}| == |waiting| - 1
  {
    assert (waiting - {id}).Keys == waiting.Keys - {id};
  }

  lemma NothingTaken(n: nat, wakes: seq<Wake>)
    ensures Took(n, wakes, 0, map[])
  {
  }

  lemma TookAll(n: nat, wakes: seq<Wake>, accepted: map<byte, bytes>)
    requires n <= |wakes| && Took(n, wakes, n, accepted)
    ensures AllAnswer(n, wakes)
  {
  }
}
