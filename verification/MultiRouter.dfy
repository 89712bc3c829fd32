/**
 * multiRouter with the core whose cleanup it owns: what each of its handlers does to both, and what
 * holds after any sequence of handlers, each run to its end.
 */
module RouterSpec {
  import opened Bytes
  import opened Frames
  import opened Coders
  import opened CoreSpec
  import RC = ReceiverCore

  /** A data peer as the map shows it. */
  datatype Entry = Entry(closes: nat, decoder: bool)

  /** The peer map: a reserved id has no peer yet. */
  type Table = map<byte, Option<Entry>>

  datatype Router = Router(
    core: Core,
    table: Table,
    completeSeen: bool,
    verifiers: nat,                   // verifyAndClose routines started
    reading: bool)                    // the control loop still runs

  datatype Call =
    | Control(frame: Frame, truncateOk: bool)
    | ControlEnds
    | Publish(id: byte)                        // the critical section of negotiateReceivePeer
    | Install(id: byte, decoderOk: bool)
    | PeerFrame(id: byte, frame: Frame, writing: Writing)
    | PeerCloses(id: byte)                     // the watcher of a data channel
    | CloseOwn(id: byte)                       // a negotiator's deferred closeSess
    | Failure(error: CoreError)                // a routine that calls fail
    | EarlyClose
    | Verification(timedOut: bool, syncOk: bool, choices: seq<RC.ReadChoice>)

  datatype Setup = Setup(coder: Coder, hash: bytes -> Digest)

  function New(contents: bytes, hasPath: bool): Router { Router(Fresh(contents, hasPath), map[], false, 0, true) }

  /** Whether the id is that of a published peer. */
  predicate Has(t: Table, id: byte) { id in t && t[id].Some? }

  predicate Reserved(t: Table, id: byte) { id in t && t[id].None? }

  /** closeSess closes a session for the first caller only. */
  function Closed(e: Entry): Entry { e.(closes := if e.closes == 0 then 1 else e.closes) }

  /** cleanup: reserved ids stay, everybody else is closed and loses the decoder. */
  function SweepTable(t: Table): Table {
    map id | id in t :: if t[id].None? then None else Some(Closed(t[id].value).(decoder := false))
  }

  /** The core handles an event; the cleanup bound to it is the router's. */
  function ToCore(u: Setup, r: Router, e: Event): Router {
    var c := Handle(r.core, e, u.hash);
    r.(core := c, table := if c.cleanups > r.core.cleanups then SweepTable(r.table) else r.table)
  }

  /** A failure: the first one sweeps the table. */
  function FailWith(r: Router, e: CoreError): Router {
    r.(core := Fail(r.core, e), table := if r.core.done then r.table else SweepTable(r.table))
  }

  lemma ToCoreFails(u: Setup, r: Router, e: CoreError)
    requires CoreSpec.Valid(r.core)
    ensures ToCore(u, r, OnFailure(e)) == FailWith(r, e) && CoreSpec.Valid(FailWith(r, e).core)
  {
    HandleKeepsValid(r.core, OnFailure(e), u.hash);
  }

  /** An entry point of the core, and the failure that its error becomes. */
  function OrFail(r: Router, x: (Core, Option<CoreError>)): Router {
    if x.1.Some? then FailWith(r.(core := x.0), x.1.value) else r.(core := x.0)
  }

  lemma ToCoreMetadata(u: Setup, r: Router, m: Metadata, ok: bool)
    requires CoreSpec.Valid(r.core)
    ensures var d := ToCore(u, r, OnMetadata(m, ok));
            d == OrFail(r, HandleMetadata(r.core, m, ok)) && CoreSpec.Valid(d.core)
  {
    HandleKeepsValid(r.core, OnMetadata(m, ok), u.hash);
    hide CoreSpec.Valid, SweepTable, Resize;
  }

  lemma ToCoreData(u: Setup, r: Router, offset: u64, plain: bytes, w: Writing)
    requires CoreSpec.Valid(r.core) && |plain| < TWO64
    ensures var d := ToCore(u, r, OnData(offset, plain, w));
            d == OrFail(r, WriteChunk(r.core, offset, plain, w)) && CoreSpec.Valid(d.core)
  {
    HandleKeepsValid(r.core, OnData(offset, plain, w), u.hash);
    hide CoreSpec.Valid, SweepTable, Overwrite, InBounds;
  }

  lemma ToCoreVerify(u: Setup, r: Router, timedOut: bool, syncOk: bool, choices: seq<RC.ReadChoice>)
    requires CoreSpec.Valid(r.core)
    ensures var c := Verify(r.core, timedOut, syncOk, Readable(r.core, choices), u.hash);
            && CoreSpec.Valid(c)
            && Apply(u, r, Verification(timedOut, syncOk, choices))
                 == r.(core := c, table := if c.cleanups > r.core.cleanups then SweepTable(r.table) else r.table)
  {
    HandleKeepsValid(r.core, OnVerify(timedOut, syncOk, Readable(r.core, choices)), u.hash);
    hide CoreSpec.Valid, SweepTable, Verify, Readable;
  }

  predicate NeedsDecoder(r: Router) { r.core.meta.Some? && r.core.meta.value.codec == CODEC_ZSTD }

  /** ingestData's decompression; no slice holds an output of 2^64 bytes. */
  function Ingested(u: Setup, e: Entry, offset: u64, payload: bytes, w: Writing): Event {
    var plain := if e.decoder then u.coder.Decode(payload) else Some(payload);
    if plain.None? || |plain.value| >= TWO64 then OnFailure(UndecodableData) else OnData(offset, plain.value, w)
  }

  predicate Incomplete(c: Core) { !c.done && (c.meta.None? || c.bytesWritten < c.meta.value.fileSize) }

  /** Whether the file can be read back. */
  ghost predicate Readable(c: Core, choices: seq<RC.ReadChoice>) {
    c.meta.Some? ==> !RC.Faulty(choices, c.meta.value.fileSize)
  }

  /** The control loop takes a frame; an error of its handler ends the loop. */
  function TakeFrame(u: Setup, r: Router, f: Frame, ok: bool): Router {
    match f
    case Meta(m) => ToCore(u, r, OnMetadata(m, ok)).(reading := HandleMetadata(r.core, m, ok).1.None?)
    case Offer(id, _) => if id in r.table then r.(reading := false) else r.(table := r.table[id := None])
    case Complete =>
      if r.core.meta.None? then ToCore(u, r, OnFailure(CompleteBeforeMetadata)).(reading := false)
      else r.(completeSeen := true, verifiers := r.verifiers + 1)
    case Abort(reason) => ToCore(u, r, OnFailure(Other(reason))).(reading := false)
    case _ => r.(reading := false)
  }

  /** The frame loop of a data peer takes a frame. */
  function TakePeerFrame(u: Setup, r: Router, id: byte, f: Frame, w: Writing): Router
    requires Has(r.table, id)
  {
    ToCore(u, r, if f.Data? then Ingested(u, r.table[id].value, f.offset, f.payload, w) else OnFailure(UnexpectedFrame))
  }

  /** One handler, run to its end; a call about a peer that is not there does nothing. */
  ghost function Apply(u: Setup, r: Router, call: Call): Router {
    match call
    case Control(f, ok) => if r.reading then TakeFrame(u, r, f, ok) else r
    case ControlEnds => r.(reading := false)
    case Publish(id) => if Reserved(r.table, id) then r.(table := r.table[id := Some(Entry(0, false))]) else r
    case Install(id, ok) =>
      if !Has(r.table, id) then r
      else if NeedsDecoder(r) && !ok then ToCore(u, r, OnFailure(DecoderFailed))
      else r.(table := r.table[id := Some(r.table[id].value.(decoder := NeedsDecoder(r)))])
    case PeerFrame(id, f, w) => if Has(r.table, id) then TakePeerFrame(u, r, id, f, w) else r
    case PeerCloses(id) => if Has(r.table, id) && Incomplete(r.core) then ToCore(u, r, OnFailure(ClosedEarly)) else r
    case CloseOwn(id) => if Has(r.table, id) then r.(table := r.table[id := Some(Closed(r.table[id].value))]) else r
    case Failure(e) => ToCore(u, r, OnFailure(e))
    case EarlyClose => if r.core.done then r else ToCore(u, r, OnFailure(ClosedEarly))
    case Verification(t, s, choices) => ToCore(u, r, OnVerify(t, s, Readable(r.core, choices)))
  }

  /** What METADATA's and the other handlers' spare arguments do not change. */
  lemma FrameIs(u: Setup, r: Router, f: Frame, ok: bool)
    ensures !f.Meta? ==> TakeFrame(u, r, f, ok) == TakeFrame(u, r, f, true)
    ensures !f.Meta? && !f.Offer? && !f.Complete? && !f.Abort? ==> TakeFrame(u, r, f, ok) == r.(reading := false)
  {
  }

  lemma ControlIs(u: Setup, r: Router, f: Frame, ok: bool)
    ensures Apply(u, r, Control(f, ok)) == if r.reading then TakeFrame(u, r, f, ok) else r
  {
    hide TakeFrame;
  }

  lemma NotInstalled(u: Setup, r: Router, id: byte, ok: bool)
    ensures !Has(r.table, id) ==> Apply(u, r, Install(id, ok)) == r
  {
  }

  ghost function Run(u: Setup, r: Router, calls: seq<Call>): Router {
    if calls == [] then r else Apply(u, Run(u, r, calls[..|calls| - 1]), calls[|calls| - 1])
  }

  // ---- What every handler keeps ----

  ghost predicate TableOk(t: Table) { forall id :: Has(t, id) ==> t[id].value.closes <= 1 }

  ghost predicate Ok(r: Router) { CoreSpec.Valid(r.core) && TableOk(r.table) }

  /** Everybody published in t is closed in t'. */
  ghost predicate AllClosed(t: Table, t': Table) {
    forall id :: Has(t, id) ==> Has(t', id) && t'[id].value.closes == 1
  }

  /** Published peers stay in the map, and a closed session stays closed. */
  ghost predicate Grows(t: Table, t': Table) {
    forall id :: Has(t, id) ==> Has(t', id) && (t[id].value.closes == 1 ==> t'[id].value.closes == 1)
  }

  /** What one handler does: if it ends the transfer, everybody who was in the map is closed. */
  ghost predicate Goes(r: Router, d: Router) {
    && Ok(d) && Grows(r.table, d.table) && (r.core.done ==> d.core.done)
    && (d.core.done && !r.core.done ==> AllClosed(r.table, d.table))
  }

  lemma CoreGoes(u: Setup, r: Router, e: Event)
    requires Ok(r) && (e.OnData? ==> |e.payload| < TWO64)
    ensures Goes(r, ToCore(u, r, e))
  {
    CleansUp(r.core, e, u.hash);
    HandleKeepsValid(r.core, e, u.hash);
    hide CoreSpec.Valid, Handle;
  }

  /** The core runs its cleanup exactly when an event ends the transfer. */
  lemma CleansUp(c: Core, e: Event, hash: bytes -> Digest)
    requires CoreSpec.Valid(c) && (e.OnData? ==> |e.payload| < TWO64)
    ensures var d := Handle(c, e, hash); (c.done ==> d.done) && (d.cleanups > c.cleanups <==> d.done && !c.done)
  {
    HandleKeepsValid(c, e, hash);
    if c.done { DoneIsFinal(c, e, hash); }
    hide Handle;
  }

  lemma TableGoes(r: Router, d: Router)
    requires Ok(r) && d.core == r.core && TableOk(d.table) && Grows(r.table, d.table)
    ensures Goes(r, d)
  {
    hide CoreSpec.Valid, TableOk, Grows;
  }

  lemma HandlerGoes(u: Setup, r: Router, call: Call)
    requires Ok(r)
    ensures Goes(r, Apply(u, r, call))
  {
    hide CoreSpec.Valid, ToCore, Goes, Readable, Incomplete, TakeFrame, TakePeerFrame;
    match call {
      case Control(f, ok) => if r.reading { FrameGoes(u, r, f, ok); }
      case Install(_, ok) =>
        if NeedsDecoder(r) && !ok { CoreGoes(u, r, OnFailure(DecoderFailed)); }
        else { InstallGoes(u, r, call); }
      case PeerFrame(id, f, w) => if Has(r.table, id) { PeerFrameGoes(u, r, id, f, w); }
      case PeerCloses(_) => CoreGoes(u, r, OnFailure(ClosedEarly));
      case Failure(e) => CoreGoes(u, r, OnFailure(e));
      case EarlyClose => CoreGoes(u, r, OnFailure(ClosedEarly));
      case Verification(t, s, choices) => CoreGoes(u, r, OnVerify(t, s, Readable(r.core, choices)));
      case ControlEnds => TableGoes(r, r.(reading := false));
      case _ => PeersGo(u, r, call);
    }
    TableGoes(r, r);
  }

  lemma FrameGoes(u: Setup, r: Router, f: Frame, ok: bool)
    requires Ok(r)
    ensures Goes(r, TakeFrame(u, r, f, ok))
  {
    hide CoreSpec.Valid, ToCore, Goes, HandleMetadata;
    match f {
      case Meta(m) =>
        CoreGoes(u, r, OnMetadata(m, ok));
        LoopGoes(r, ToCore(u, r, OnMetadata(m, ok)), HandleMetadata(r.core, m, ok).1.None?);
      case Offer(id, _) => OfferGoes(u, r, f, ok);
      case Complete =>
        CoreGoes(u, r, OnFailure(CompleteBeforeMetadata));
        LoopGoes(r, ToCore(u, r, OnFailure(CompleteBeforeMetadata)), false);
        TableGoes(r, r.(completeSeen := true, verifiers := r.verifiers + 1));
      case Abort(reason) =>
        CoreGoes(u, r, OnFailure(Other(reason)));
        LoopGoes(r, ToCore(u, r, OnFailure(Other(reason))), false);
      case _ => TableGoes(r, r.(reading := false));
    }
  }

  lemma LoopGoes(r: Router, d: Router, reading: bool)
    requires Goes(r, d)
    ensures Goes(r, d.(reading := reading))
  {
    hide CoreSpec.Valid, TableOk, Grows, AllClosed;
  }

  lemma OfferGoes(u: Setup, r: Router, f: Frame, ok: bool)
    requires Ok(r) && f.Offer?
    ensures Goes(r, TakeFrame(u, r, f, ok))
  {
    hide CoreSpec.Valid, Goes;
    TableGoes(r, TakeFrame(u, r, f, ok));
  }

  lemma PeerFrameGoes(u: Setup, r: Router, id: byte, f: Frame, w: Writing)
    requires Ok(r) && Has(r.table, id)
    ensures Goes(r, TakePeerFrame(u, r, id, f, w))
  {
    hide CoreSpec.Valid, ToCore, Goes;
    CoreGoes(u, r, if f.Data? then Ingested(u, r.table[id].value, f.offset, f.payload, w) else OnFailure(UnexpectedFrame));
  }

  lemma InstallGoes(u: Setup, r: Router, call: Call)
    requires Ok(r) && call.Install? && !(NeedsDecoder(r) && !call.decoderOk)
    ensures Goes(r, Apply(u, r, call))
  {
    hide CoreSpec.Valid, ToCore, Goes, NeedsDecoder;
    TableGoes(r, Apply(u, r, call));
  }

  lemma PeersGo(u: Setup, r: Router, call: Call)
    requires Ok(r) && (call.Publish? || call.CloseOwn?)
    ensures Goes(r, Apply(u, r, call))
  {
    hide CoreSpec.Valid, ToCore, Goes;
    TableGoes(r, Apply(u, r, call));
  }

  lemma {:induction false} RunIsOk(u: Setup, contents: bytes, hasPath: bool, calls: seq<Call>)
    ensures Ok(Run(u, New(contents, hasPath), calls))
  {
    hide Apply;
    if calls != [] {
      RunIsOk(u, contents, hasPath, calls[..|calls| - 1]);
      HandlerGoes(u, Run(u, New(contents, hasPath), calls[..|calls| - 1]), calls[|calls| - 1]);
    }
  }

  /**
   * After any handlers in any order and number: cleanup has run once if the transfer is over and not
   * otherwise, every peer that was published before it ended is closed, and no session is ever closed
   * twice.
   */
  lemma {:induction false} PeersClosedOnce(u: Setup, contents: bytes, hasPath: bool, calls: seq<Call>, n: nat, id: byte)
    requires n <= |calls|
    ensures var r, last := Run(u, New(contents, hasPath), calls[..n]), Run(u, New(contents, hasPath), calls);
            && last.core.cleanups == (if last.core.done then 1 else 0)
            && (r.core.done ==> last.core.done)
            && (Has(r.table, id) ==> Has(last.table, id) && last.table[id].value.closes <= 1)
            && (Has(r.table, id) && (r.table[id].value.closes == 1 || (last.core.done && !r.core.done)) ==>
                  last.table[id].value.closes == 1)
    decreases |calls|
  {
    hide Apply;
    RunIsOk(u, contents, hasPath, calls);
    if n == |calls| {
      assert calls[..n] == calls;
    } else {
      var p := calls[..|calls| - 1];
      assert p[..n] == calls[..n];
      PeersClosedOnce(u, contents, hasPath, p, n, id);
      RunIsOk(u, contents, hasPath, p);
      HandlerGoes(u, Run(u, New(contents, hasPath), p), calls[|calls| - 1]);
    }
  }
}

/** The router as the object its handlers share. */
module MultiRouters {
  import opened Bytes
  import opened Frames
  import opened Coders
  import opened CoreSpec
  import opened ReceiverCore
  import opened RouterSpec

  /** receivePeer: sessClose guards the one close of the session. */
  class ReceivePeer {
    const id: byte
    var sessClosed: bool    // sessClose has run
    var closes: nat         // how often the session was closed
    var decoder: bool

    constructor (id: byte)
      ensures this.id == id && Valid() && View() == Entry(0, false)
    {
      this.id := id;
      sessClosed, closes, decoder := false, 0, false;
    }

    ghost predicate Valid()
      reads this
    {
      closes == if sessClosed then 1 else 0
    }

    ghost function View(): Entry
      reads this
    {
      Entry(closes, decoder)
    }

    method CloseSess()
      requires Valid()
      modifies this`sessClosed, this`closes
      ensures Valid() && View() == Closed(old(View()))
    {
      if !sessClosed {
        sessClosed := true;
        closes := closes + 1;
      }
    }
  }

  class MultiRouter {
    const setup: Setup
    const core: TransferCore
    var peers: map<byte, ReceivePeer?>   // nil: reserved, still being negotiated
    var completeSeen: bool
    var verifiers: nat                   // verifyAndClose routines started
    var reading: bool                    // the control loop still runs

    ghost function Repr(): set<object>
      reads this
    {
      set id | id in peers && peers[id] != null :: peers[id]
    }

    ghost predicate PeersOk()
      reads this, Repr()
    {
      forall id :: id in peers && peers[id] != null ==> peers[id].id == id && peers[id].Valid()
    }

    ghost predicate Valid()
      reads this, core, Repr()
    {
      CoreSpec.Valid(core.State()) && PeersOk()
    }

    ghost function View(): Table
      reads this, Repr()
    {
      map id | id in peers :: if peers[id] == null then None else Some(peers[id].View())
    }

    ghost function State(): Router
      reads this, core, Repr()
    {
      Router(core.State(), View(), completeSeen, verifiers, reading)
    }

    constructor (setup: Setup, contents: bytes, hasPath: bool)
      ensures Valid() && fresh(core) && fresh(Repr()) && this.setup == setup && State() == New(contents, hasPath)
    {
      this.setup := setup;
      core := new TransferCore(contents, hasPath);
      peers, completeSeen, verifiers, reading := map[], false, 0, true;
    }

    /** cleanup: walks the map and closes every peer in it, leaving reservations alone. */
    method Cleanup()
      requires PeersOk()
      modifies Repr()
      ensures PeersOk() && peers == old(peers) && View() == SweepTable(old(View()))
    {
      var left := peers.Keys;
      while left != {}
        invariant left <= peers.Keys && peers == old(peers) && PeersOk()
        invariant forall id :: id in peers && peers[id] != null ==>
                    peers[id].View() == if id in left then old(peers[id].View())
                                        else Closed(old(peers[id].View())).(decoder := false)
        decreases left
      {
        var id :| id in left;
        if peers[id] != null {
          peers[id].decoder := false;
          peers[id].CloseSess();
        }
        left := left - {id};
      }
    }

    /** core.fail, with the router's cleanup bound into it. */
    method Fail(e: CoreError)
      requires PeersOk()
      modifies core, Repr()
      ensures PeersOk() && peers == old(peers) && State() == FailWith(old(State()), e)
    {
      hide SweepTable;
      var first := !core.done;
      core.Fail(e);
      if first {
        Cleanup();
      }
    }

    method OnMetadata(m: Metadata, truncateOk: bool) returns (failed: bool)
      requires Valid() && reading
      modifies core, Repr()
      ensures Valid() && peers == old(peers)
      ensures State().(reading := !failed) == TakeFrame(setup, old(State()), Meta(m), truncateOk)
    {
      hide CoreSpec.Valid, ToCore, FailWith, HandleMetadata;
      ToCoreMetadata(setup, State(), m, truncateOk);
      var err := core.HandleMetadata(m, truncateOk);
      failed := err.Some?;
      if failed {
        Fail(err.value);
      }
    }

    /** OnAddPeerOffer reserves the id; a second offer for it is refused. */
    method OnAddPeerOffer(id: byte, sdp: bytes) returns (failed: bool)
      requires Valid() && reading
      modifies this`peers
      ensures Valid() && fresh(Repr() - old(Repr()))
      ensures State().(reading := !failed) == TakeFrame(setup, old(State()), Offer(id, sdp), true)
    {
      hide CoreSpec.Valid, ToCore;
      failed := id in peers;
      if !failed {
        Reserve(id);
      }
    }

    /** OnTransferComplete starts a verification, or fails without METADATA. */
    method OnTransferComplete() returns (failed: bool)
      requires Valid() && reading
      modifies core, this`completeSeen, this`verifiers, Repr()
      ensures Valid() && peers == old(peers)
      ensures State().(reading := !failed) == TakeFrame(setup, old(State()), Complete, true)
    {
      hide CoreSpec.Valid, ToCore, FailWith;
      ToCoreFails(setup, State(), CompleteBeforeMetadata);
      failed := core.meta.None?;
      if failed {
        Fail(CompleteBeforeMetadata);
      } else {
        completeSeen := true;
        verifiers := verifiers + 1;
      }
    }

    method OnAbort(reason: bytes) returns (failed: bool)
      requires Valid() && reading
      modifies core, Repr()
      ensures Valid() && peers == old(peers)
      ensures State().(reading := !failed) == TakeFrame(setup, old(State()), Abort(reason), true)
    {
      hide CoreSpec.Valid, ToCore, FailWith;
      ToCoreFails(setup, State(), Other(reason));
      Fail(Other(reason));
      failed := true;
    }

    /** Dispatching a frame to its handler; control frames of other types are errors. */
    method OnFrame(f: Frame, truncateOk: bool) returns (failed: bool)
      requires Valid() && reading
      modifies core, `peers, `completeSeen, `verifiers, Repr()
      ensures Valid() && fresh(Repr() - old(Repr()))
      ensures State().(reading := !failed) == TakeFrame(setup, old(State()), f, truncateOk)
    {
      hide CoreSpec.Valid, TakeFrame;
      FrameIs(setup, State(), f, truncateOk);
      match f {
        case Meta(m) => failed := OnMetadata(m, truncateOk);
        case Offer(id, sdp) => failed := OnAddPeerOffer(id, sdp);
        case Complete => failed := OnTransferComplete();
        case Abort(reason) => failed := OnAbort(reason);
        case _ => failed := true;
      }
    }

    /** One turn of the control loop. */
    method Receive(f: Frame, truncateOk: bool)
      requires Valid()
      modifies this, core, Repr()
      ensures Valid() && fresh(Repr() - old(Repr())) && State() == Apply(setup, old(State()), Control(f, truncateOk))
    {
      hide CoreSpec.Valid, TakeFrame, Apply;
      ControlIs(setup, State(), f, truncateOk);
      if reading {
        var failed := OnFrame(f, truncateOk);
        reading := !failed;
      }
    }

    method Reserve(id: byte)
      requires PeersOk() && id !in peers
      modifies this`peers
      ensures PeersOk() && Repr() == old(Repr()) && View() == old(View())[id := None]
    {
      peers := peers[id := null];
      assert forall p :: p in Repr() ==> p in old(Repr());
      assert forall i :: i in old(peers) ==> i in peers && peers[i] == old(peers)[i];
    }

    /** The critical section of negotiateReceivePeer. */
    method Publish(id: byte)
      requires Valid()
      modifies this`peers
      ensures Valid() && fresh(Repr() - old(Repr())) && State() == Apply(setup, old(State()), Call.Publish(id))
    {
      hide CoreSpec.Valid, ToCore;
      if id in peers && peers[id] == null {
        var peer := new ReceivePeer(id);
        peers := peers[id := peer];
      }
    }

    /** The deferred closeSess of a negotiator that has not succeeded. */
    method CloseOwn(id: byte)
      requires Valid()
      modifies Repr()
      ensures Valid() && peers == old(peers) && State() == Apply(setup, old(State()), Call.CloseOwn(id))
    {
      hide CoreSpec.Valid, ToCore;
      if id in peers && peers[id] != null {
        peers[id].CloseSess();
      }
    }

    method SetDecoder(id: byte, decoder: bool)
      requires PeersOk() && Has(View(), id)
      modifies Repr()
      ensures PeersOk() && peers == old(peers)
      ensures View() == old(View())[id := Some(old(View())[id].value.(decoder := decoder))]
    {
      peers[id].decoder := decoder;
    }

    /** installDataPeer up to the start of the frame loop. */
    method InstallDataPeer(id: byte, decoderOk: bool) returns (installed: bool)
      requires Valid() && id in peers && peers[id] != null
      modifies core, Repr()
      ensures Valid() && peers == old(peers) && State() == Apply(setup, old(State()), Install(id, decoderOk))
      ensures installed <==> !NeedsDecoder(old(State())) || decoderOk
    {
      hide CoreSpec.Valid, ToCore, FailWith;
      var needed := core.meta.Some? && core.meta.value.codec == CODEC_ZSTD;
      installed := !needed || decoderOk;
      if installed {
        SetDecoder(id, needed);
      } else {
        ToCoreFails(setup, State(), DecoderFailed);
        Fail(DecoderFailed);
      }
    }

    /** onPeerData with ingestData. */
    method OnPeerData(id: byte, offset: u64, payload: bytes, w: Writing)
      requires Valid() && id in peers && peers[id] != null
      modifies core, Repr()
      ensures Valid() && peers == old(peers)
      ensures State() == TakePeerFrame(setup, old(State()), id, Data(offset, payload), w)
    {
      hide CoreSpec.Valid, ToCore, FailWith, WriteChunk;
      var plain := if peers[id].decoder then setup.coder.Decode(payload) else Some(payload);
      if plain.None? || |plain.value| >= TWO64 {
        ToCoreFails(setup, State(), UndecodableData);
        Fail(UndecodableData);
      } else {
        ToCoreData(setup, State(), offset, plain.value, w);
        var err := core.WriteChunk(offset, plain.value, w);
        if err.Some? {
          Fail(err.value);
        }
      }
    }

    /** peerFrameHandler: DATA is written, any other frame is an error, which the loop's owner reports. */
    method OnPeerFrame(id: byte, f: Frame, w: Writing)
      requires Valid()
      modifies core, Repr()
      ensures Valid() && peers == old(peers) && State() == Apply(setup, old(State()), PeerFrame(id, f, w))
    {
      hide CoreSpec.Valid, ToCore, FailWith;
      if id in peers && peers[id] != null {
        match f {
          case Data(offset, payload) => OnPeerData(id, offset, payload, w);
          case _ =>
            ToCoreFails(setup, State(), UnexpectedFrame);
            Fail(UnexpectedFrame);
        }
      }
    }

    /** The watcher of a data channel that has been closed. */
    method OnPeerClosed(id: byte)
      requires Valid()
      modifies core, Repr()
      ensures Valid() && peers == old(peers) && State() == Apply(setup, old(State()), PeerCloses(id))
    {
      hide CoreSpec.Valid, ToCore, FailWith;
      ToCoreFails(setup, State(), ClosedEarly);
      if id in peers && peers[id] != null && !core.done && (core.meta.None? || core.bytesWritten < core.meta.value.fileSize) {
        Fail(ClosedEarly);
      }
    }

    /** Every other routine whose error ends the transfer. */
    method OnFailed(e: CoreError)
      requires Valid()
      modifies core, Repr()
      ensures Valid() && peers == old(peers) && State() == Apply(setup, old(State()), Failure(e))
    {
      hide CoreSpec.Valid, ToCore, FailWith;
      ToCoreFails(setup, State(), e);
      Fail(e);
    }

    /** failOnEarlyClose looks at done, not at completeSeen. */
    method FailOnEarlyClose()
      requires Valid()
      modifies core, Repr()
      ensures Valid() && peers == old(peers) && State() == Apply(setup, old(State()), EarlyClose)
    {
      hide CoreSpec.Valid, ToCore, FailWith;
      ToCoreFails(setup, State(), ClosedEarly);
      if !core.done {
        Fail(ClosedEarly);
      }
    }

    /** verifyAndClose, with the router's cleanup bound into it. */
    method VerifyAndClose(timedOut: bool, syncOk: bool, choices: seq<ReadChoice>)
      requires Valid()
      modifies core, Repr()
      ensures Valid() && peers == old(peers)
              && State() == Apply(setup, old(State()), Verification(timedOut, syncOk, choices))
    {
      hide CoreSpec.Valid, ToCore, Apply, SweepTable, Verify, Faulty;
      ToCoreVerify(setup, State(), timedOut, syncOk, choices);
      var before := core.cleanups;
      core.VerifyAndClose(timedOut, syncOk, setup.hash, choices);
      if core.cleanups > before {
        Cleanup();
      }
    }

    /** The control loop ends; its error is only logged. */
    method StopReading()
      requires Valid()
      modifies this`reading
      ensures Valid() && peers == old(peers) && State() == Apply(setup, old(State()), ControlEnds)
    {
      reading := false;
    }

    /** One call of a handler. */
    method Serve(call: Call)
      requires Valid()
      modifies this, core, Repr()
      ensures Valid() && fresh(Repr() - old(Repr())) && State() == Apply(setup, old(State()), call)
    {
      hide Apply, CoreSpec.Valid;
      match call {
        case Control(f, ok) => Receive(f, ok);
        case ControlEnds => StopReading();
        case Publish(id) => Publish(id);
        case Install(id, ok) =>
          NotInstalled(setup, State(), id, ok);
          if id in peers && peers[id] != null {
            var _ := InstallDataPeer(id, ok);
          }
        case PeerFrame(id, f, w) => OnPeerFrame(id, f, w);
        case PeerCloses(id) => OnPeerClosed(id);
        case CloseOwn(id) => CloseOwn(id);
        case Failure(e) => OnFailed(e);
        case EarlyClose => FailOnEarlyClose();
        case Verification(t, s, choices) => VerifyAndClose(t, s, choices);
      }
    }
  }

  /** A router that serves any calls, one after another, from its construction on. */
  method ServeAll(setup: Setup, contents: bytes, hasPath: bool, calls: seq<Call>) returns (r: MultiRouter)
    ensures fresh(r) && r.Valid() && r.State() == RouterSpec.Run(setup, New(contents, hasPath), calls)
  {
    hide Apply, CoreSpec.Valid;
    r := new MultiRouter(setup, contents, hasPath);
    for i := 0 to |calls|
      invariant r.Valid() && fresh(r) && fresh(r.core) && fresh(r.Repr()) && r.setup == setup
      invariant r.State() == RouterSpec.Run(setup, New(contents, hasPath), calls[..i])
    {
      assert calls[..i + 1][..i] == calls[..i];
      r.Serve(calls[i]);
    }
    assert calls[..|calls|] == calls;
  }
}
