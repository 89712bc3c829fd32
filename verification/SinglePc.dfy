/**
 * The single-connection receiver (pkg/transfer/receiver/single.go and the gates of init.go) and the
 * whole single-connection transfer, from the source stream to the verified output file.
 */
module SingleSpec {
  import opened Bytes
  import opened Frames
  import opened Coders
  import opened CoreSpec

  datatype Single = Single(
    core: Core,
    decoder: bool,      // a zstd decoder exists
    eofSeen: bool,
    pending: nat,       // verifyAndClose goroutines started
    reading: bool)      // the OnFrames loop still runs

  function FreshSingle(contents: bytes, hasPath: bool): Single {
    Single(Fresh(contents, hasPath), false, false, 0, true)
  }

  /** Outcomes of the environment's part in handling one message. */
  datatype Env = Env(truncateOk: bool, decoderOk: bool, writing: Writing)

  datatype Event =
    | Deliver(msg: bytes, env: Env)
    | ChannelClosed
    | LoopFailed                       // OnFrames exits with a transport error
    | Finish(timedOut: bool, syncOk: bool, readOk: bool)

  function Failed(h: Single, e: CoreError): Single { h.(core := Fail(h.core, e)) }

  const LOOP_ERROR: CoreError := Other([0])
  const EOF_BEFORE_METADATA: CoreError := Other([1])
  const DUPLICATE_EOF: CoreError := Other([2])

  /** singleHandler's method for one frame; the flag says whether it returned an error. */
  function OnFrame(h: Single, f: Frame, env: Env, coder: Coder): (Single, bool) {
    match f
    case Meta(m) =>
      var (c, err) := HandleMetadata(h.core, m, env.truncateOk);
      if err.Some? then (h.(core := Fail(c, err.value)), true)
      else if m.codec == CODEC_ZSTD then
        if env.decoderOk then (h.(core := c, decoder := true), false)
        else (h.(core := Fail(c, DecoderFailed)), true)
      else (h.(core := c), false)
    case Data(offset, payload) =>
      var plain := if h.decoder then coder.Decode(payload) else Some(payload);
      if plain.None? then (Failed(h, UndecodableData), true)
      else
        var (c, err) := WriteChunk(h.core, offset, plain.value, env.writing);
        if err.Some? then (h.(core := Fail(c, err.value)), true) else (h.(core := c), false)
    case Eof =>
      if h.core.meta.None? then (Failed(h, EOF_BEFORE_METADATA), true)
      else if h.eofSeen then (Failed(h, DUPLICATE_EOF), true)
      else (h.(eofSeen := true, pending := h.pending + 1), false)
    case Abort(reason) => (Failed(h, Other(reason)), true)
    case _ => (h, true)
  }

  /** The OnFrames exit callback: silent once EOF has been seen. */
  function OnLoopError(h: Single): Single {
    if h.eofSeen then h.(reading := false) else Failed(h, LOOP_ERROR).(reading := false)
  }

  function Handle(h: Single, e: Event, coder: Coder, hash: bytes -> Digest): Single {
    match e
    case Deliver(msg, env) =>
      if !h.reading then h
      else (match Dispatch(msg)
            case Err(_) => OnLoopError(h)
            case Ok(f) =>
              var (g, failed) := OnFrame(h, f, env, coder);
              if failed then OnLoopError(g) else g)
    case ChannelClosed => if h.eofSeen || h.core.done then h else Failed(h, ClosedEarly)
    case LoopFailed => if h.reading then OnLoopError(h) else h
    case Finish(timedOut, syncOk, readOk) =>
      if h.pending == 0 then h
      else
        var c := Verify(h.core, timedOut, syncOk, readOk, hash);
        h.(core := c, pending := if c.done then h.pending - 1 else h.pending)
  }

  function RunTo(h: Single, es: seq<Event>, n: nat, coder: Coder, hash: bytes -> Digest): Single
    requires n <= |es|
  {
    if n == 0 then h else Handle(RunTo(h, es, n - 1, coder, hash), es[n - 1], coder, hash)
  }
}

module SinglePc {
  import opened Bytes
  import opened Frames
  import opened Pieces
  import opened Coders
  import Producers
  import opened CoreSpec
  import opened SingleSpec

  // ---- What one message does, in full ----

  /** What is wrong with a message, if anything. */
  function MessageFault(h: Single, msg: bytes, env: Env, coder: Coder): Option<CoreError> {
    match Dispatch(msg)
    case Err(_) => if h.eofSeen then None else Some(LOOP_ERROR)
    case Ok(f) =>
      (match f
       case Meta(m) =>
         if MetadataFault(h.core, m, env.truncateOk).Some? then MetadataFault(h.core, m, env.truncateOk)
         else if m.codec == 1 && !env.decoderOk then Some(DecoderFailed) else None
       case Data(offset, payload) => PayloadFault(h.core, offset, Plain(h, payload, coder), env.writing)
       case Eof =>
         if h.core.meta.None? then Some(EOF_BEFORE_METADATA) else if h.eofSeen then Some(DUPLICATE_EOF) else None
       case Abort(reason) => Some(Other(reason))
       case _ => if h.eofSeen then None else Some(LOOP_ERROR))
  }

  /** A DATA payload, decompressed if there is a decoder. */
  function Plain(h: Single, payload: bytes, coder: Coder): Option<bytes> {
    if h.decoder then coder.Decode(payload) else Some(payload)
  }

  function PayloadFault(c: Core, offset: u64, plain: Option<bytes>, w: Writing): Option<CoreError> {
    if plain.None? then Some(UndecodableData)
    else if c.meta.None? then Some(DataBeforeMetadata)
    else if offset + |plain.value| > c.meta.value.fileSize then Some(OutOfBounds)
    else if w.Failed? then Some(WriteFailed)
    else None
  }

  /** The read loop goes on exactly after METADATA, DATA and EOF with nothing wrong. */
  predicate Readable(h: Single, msg: bytes, env: Env, coder: Coder) {
    MessageFault(h, msg, env, coder).None? && Dispatch(msg).Ok?
    && (Dispatch(msg).value.Meta? || Dispatch(msg).value.Data? || Dispatch(msg).value.Eof?)
  }

  /** No slice holds 2^64 bytes. */
  ghost predicate Fits(coder: Coder) { forall w, p :: coder.Decode(w) == Some(p) ==> |p| < TWO64 }

  /**
   * A message at fault ends an unfinished transfer with exactly its fault, and the read loop; so does, as
   * far as the loop goes, a message after EOF that nobody understands.
   */
  lemma FaultyMessage(h: Single, msg: bytes, env: Env, coder: Coder, hash: bytes -> Digest)
    requires CoreSpec.Valid(h.core) && !h.core.done && h.reading && |msg| < TWO64 && Fits(coder)
    ensures var g, fault := SingleSpec.Handle(h, Deliver(msg, env), coder, hash), MessageFault(h, msg, env, coder);
            && (fault.Some? ==> EndedWith(h.core, g.core, fault.value))
            && (g.reading <==> Readable(h, msg, env, coder))
            && (fault.None? && !g.reading ==> g.core == h.core && h.eofSeen)
  {
    hide Dispatch, Fits, CoreSpec.Valid, EndedWith, HandleMetadata, WriteChunk, MetadataFault, PayloadFault, Fail;
    var g := SingleSpec.Handle(h, Deliver(msg, env), coder, hash);
    Failing(h.core, LOOP_ERROR);
    match Dispatch(msg) {
      case Err(_) =>
      case Ok(f) =>
        match f {
          case Meta(m) => FaultyMetadata(h, m, env, coder);
          case Data(offset, payload) =>
            ReEncode(msg);
            FaultyData(h, offset, payload, env, coder);
          case Eof => FaultyEof(h, env, coder);
          case Abort(reason) => Failing(h.core, Other(reason));
          case _ =>
        }
        SecondFailure(OnFrame(h, f, env, coder).0);
    }
  }

  lemma Failing(c: Core, e: CoreError)
    requires CoreSpec.Valid(c) && !c.done
    ensures EndedWith(c, Fail(c, e), e)
  {
    FailOutcome(c, e);
  }

  /** When the transfer is over the end of the loop changes nothing else. */
  lemma SecondFailure(h: Single)
    ensures h.core.done ==> OnLoopError(h) == h.(reading := false)
  {
  }

  lemma FaultyMetadata(h: Single, m: Metadata, env: Env, coder: Coder)
    requires CoreSpec.Valid(h.core) && !h.core.done
    ensures var (g, failed) := OnFrame(h, Meta(m), env, coder);
            var fault := if MetadataFault(h.core, m, env.truncateOk).Some? then MetadataFault(h.core, m, env.truncateOk)
                         else if m.codec == 1 && !env.decoderOk then Some(DecoderFailed) else None;
            && (failed <==> fault.Some?) && g.reading == h.reading && g.eofSeen == h.eofSeen
            && (fault.Some? ==> EndedWith(h.core, g.core, fault.value) && g.core.done)
  {
    hide HandleMetadata, MetadataFault, CoreSpec.Valid, EndedWith, Fail;
    var (c, err) := HandleMetadata(h.core, m, env.truncateOk);
    RefusedMetadata(h.core, m, env.truncateOk);
    if err.Some? { EndsDone(h.core, c, err.value); } else { EndsDone(h.core, c, DecoderFailed); }
  }

  lemma RefusedMetadata(c: Core, m: Metadata, ok: bool)
    requires CoreSpec.Valid(c) && !c.done
    ensures var (d, err) := HandleMetadata(c, m, ok);
            err == MetadataFault(c, m, ok) && !d.done && d.hasPath == c.hasPath && d.cleanups == 0
  {
    hide Resize;
  }

  lemma EndsDone(c: Core, d: Core, e: CoreError)
    requires !d.done && d.hasPath == c.hasPath && d.cleanups == 0
    ensures EndedWith(c, Fail(d, e), e) && Fail(d, e).done
  {
  }

  lemma FaultyData(h: Single, offset: u64, payload: bytes, env: Env, coder: Coder)
    requires CoreSpec.Valid(h.core) && !h.core.done && |payload| < TWO64 && Fits(coder)
    ensures var (g, failed) := OnFrame(h, Data(offset, payload), env, coder);
            var fault := PayloadFault(h.core, offset, Plain(h, payload, coder), env.writing);
            && (failed <==> fault.Some?) && g.reading == h.reading && g.eofSeen == h.eofSeen
            && (fault.Some? ==> EndedWith(h.core, g.core, fault.value) && g.core.done)
  {
    hide WriteChunk, EndedWith, CoreSpec.Valid, Fail;
    var plain := Plain(h, payload, coder);
    if plain.Some? {
      FaultyWrite(h.core, offset, plain.value, env.writing);
    } else {
      Failing(h.core, UndecodableData);
    }
    OverIsDone(h.core, OnFrame(h, Data(offset, payload), env, coder).0.core);
  }

  lemma FaultyWrite(c: Core, offset: u64, p: bytes, w: Writing)
    requires CoreSpec.Valid(c) && !c.done && |p| < TWO64
    ensures var (d, err) := WriteChunk(c, offset, p, w);
            err == PayloadFault(c, offset, Some(p), w) && (err.Some? ==> EndedWith(c, Fail(d, err.value), err.value))
  {
    if c.meta.Some? { BoundsTestIsExact(offset, |p|, c.meta.value.fileSize); }
    hide InBounds, Overwrite;
  }

  lemma OverIsDone(c: Core, d: Core)
    ensures forall e :: EndedWith(c, d, e) ==> d.done
  {
  }

  lemma FaultyEof(h: Single, env: Env, coder: Coder)
    requires CoreSpec.Valid(h.core) && !h.core.done
    ensures var (g, failed) := OnFrame(h, Eof, env, coder);
            var fault := if h.core.meta.None? then Some(EOF_BEFORE_METADATA)
                         else if h.eofSeen then Some(DUPLICATE_EOF) else None;
            && (failed <==> fault.Some?) && g.reading == h.reading
            && (fault.Some? ==> EndedWith(h.core, g.core, fault.value) && g.core.done)
  {
  }

  /** METADATA, DATA and EOF with nothing wrong do what they are for. */
  lemma GoodMessage(h: Single, msg: bytes, env: Env, coder: Coder, hash: bytes -> Digest)
    requires CoreSpec.Valid(h.core) && !h.core.done && h.reading && |msg| < TWO64 && Fits(coder)
    requires Readable(h, msg, env, coder)
    ensures var g, f := SingleSpec.Handle(h, Deliver(msg, env), coder, hash), Dispatch(msg).value;
            match f
            case Meta(m) =>
              g == h.(core := g.core, decoder := h.decoder || m.codec == 1) && !g.core.done && g.core.meta == Some(m)
              && |g.core.sink| == m.fileSize && g.core.bytesWritten == 0 && (g.core.allBytes <==> m.fileSize == 0)
            case Data(offset, payload) =>
              var p := Plain(h, payload, coder).value;
              g == h.(core := g.core) && !g.core.done && g.core.meta == h.core.meta
              && Patched(h.core.sink, g.core.sink, offset, p)
              && g.core.bytesWritten == (h.core.bytesWritten + |p|) % 0x1_0000_0000_0000_0000
            case _ => g == h.(eofSeen := true, pending := h.pending + 1)
  {
    hide Dispatch, Fits, CoreSpec.Valid, HandleMetadata, WriteChunk, MetadataFault, PayloadFault, Fail, Patched;
    match Dispatch(msg).value {
      case Meta(m) => GoodMetadata(h, m, env, coder);
      case Data(offset, payload) =>
        ReEncode(msg);
        GoodData(h, offset, payload, env, coder);
      case _ => FaultyEof(h, env, coder);
    }
  }

  lemma GoodMetadata(h: Single, m: Metadata, env: Env, coder: Coder)
    requires CoreSpec.Valid(h.core) && !h.core.done
    requires MetadataFault(h.core, m, env.truncateOk).None? && !(m.codec == 1 && !env.decoderOk)
    ensures var (g, failed) := OnFrame(h, Meta(m), env, coder);
            && !failed && g == h.(core := g.core, decoder := h.decoder || m.codec == 1) && !g.core.done
            && g.core.meta == Some(m) && |g.core.sink| == m.fileSize && g.core.bytesWritten == 0
            && (g.core.allBytes <==> m.fileSize == 0)
  {
    hide Resize;
  }

  lemma GoodData(h: Single, offset: u64, payload: bytes, env: Env, coder: Coder)
    requires CoreSpec.Valid(h.core) && !h.core.done && |payload| < TWO64 && Fits(coder)
    requires PayloadFault(h.core, offset, Plain(h, payload, coder), env.writing).None?
    ensures var (g, failed) := OnFrame(h, Data(offset, payload), env, coder);
            var p := Plain(h, payload, coder).value;
            && !failed && g == h.(core := g.core) && !g.core.done && g.core.meta == h.core.meta
            && Patched(h.core.sink, g.core.sink, offset, p)
            && g.core.bytesWritten == (h.core.bytesWritten + |p|) % 0x1_0000_0000_0000_0000
  {
    hide WriteChunk, CoreSpec.Valid, Fail, Patched;
    GoodWrite(h.core, offset, Plain(h, payload, coder).value, env.writing);
  }

  lemma GoodWrite(c: Core, offset: u64, p: bytes, w: Writing)
    requires CoreSpec.Valid(c) && !c.done && |p| < TWO64 && PayloadFault(c, offset, Some(p), w).None?
    ensures var (d, err) := WriteChunk(c, offset, p, w);
            && err.None? && !d.done && d.meta == c.meta && Patched(c.sink, d.sink, offset, p)
            && d.bytesWritten == (c.bytesWritten + |p|) % 0x1_0000_0000_0000_0000
  {
    BoundsTestIsExact(offset, |p|, c.meta.value.fileSize);
    OverwriteMeans(c.sink, offset, p);
    hide InBounds, Overwrite, Patched;
  }

  /** An ABORT ends an unfinished transfer with the reason it carries, and removes the file if it has a path. */
  lemma AbortFails(h: Single, reason: bytes, env: Env, coder: Coder, hash: bytes -> Digest)
    requires CoreSpec.Valid(h.core) && !h.core.done && h.reading
    ensures var g := SingleSpec.Handle(h, Deliver(Wire(Abort(reason)), env), coder, hash);
            && g.core.done && g.core.result == Some(Other(reason)) && !g.reading
            && (g.core.removed <==> h.core.hasPath) && g.core.sink == h.core.sink
  {
    hide Dispatch, Wire;
    RoundTrip(Abort(reason));
  }

  // ---- Closes after EOF ----

  /** Whether the read loop has failed within the first n events. */
  predicate Stopped(es: seq<SingleSpec.Event>, n: nat)
    requires n <= |es|
  {
    n > 0 && (es[n - 1].LoopFailed? || Stopped(es, n - 1))
  }

  /** The first n events without closes and loop errors, and without the messages nobody reads any more. */
  function Quiet(es: seq<SingleSpec.Event>, n: nat): seq<SingleSpec.Event>
    requires n <= |es|
  {
    if n == 0 then []
    else
      var e := es[n - 1];
      Quiet(es, n - 1)
      + if e.ChannelClosed? || e.LoopFailed? || (e.Deliver? && Stopped(es, n - 1)) then [] else [e]
  }

  /**
   * After EOF neither a close of the channel nor an error of the read loop touches the transfer: for any
   * events that follow, in any order, the core ends up as if no close and no loop error had happened,
   * except that messages which come after a loop error are not read.
   */
  lemma {:induction false} AfterEofClosesAreHarmless(h: Single, es: seq<SingleSpec.Event>, n: nat,
                                                     coder: Coder, hash: bytes -> Digest)
    requires h.eofSeen && n <= |es|
    ensures var q := RunTo(h, Quiet(es, n), |Quiet(es, n)|, coder, hash);
            RunTo(h, es, n, coder, hash) == q.(reading := q.reading && !Stopped(es, n)) && q.eofSeen
  {
    hide SingleSpec.Handle;
    if n > 0 {
      AfterEofClosesAreHarmless(h, es, n - 1, coder, hash);
      var q, e := Quiet(es, n - 1), es[n - 1];
      var s := RunTo(h, q, |q|, coder, hash);
      AfterEofStep(s, !Stopped(es, n - 1), e, coder, hash);
      RunToAppend(h, q, e, |q|, coder, hash);
      assert q + [] == q;
    }
  }

  /** What one event does to the two runs. */
  lemma AfterEofStep(s: Single, open: bool, e: SingleSpec.Event, coder: Coder, hash: bytes -> Digest)
    requires s.eofSeen
    ensures var g, q := SingleSpec.Handle(s.(reading := s.reading
            && open), e, coder, hash), SingleSpec.Handle(s, e, coder, hash);
            && q.eofSeen
            && (e.ChannelClosed? || (e.Deliver? && !open) ==> g == s.(reading := s.reading && open))
            && (e.LoopFailed? ==> g == s.(reading := false))
            && (e.Finish? || (e.Deliver? && open) ==> g == q.(reading := q.reading && open))
  {
    hide Dispatch, Verify, WriteChunk, HandleMetadata, Fail;
  }

  lemma {:induction false} RunToAppend(h: Single, x: seq<SingleSpec.Event>, e: SingleSpec.Event, n: nat,
                                       coder: Coder, hash: bytes -> Digest)
    requires n <= |x|
    ensures RunTo(h, x + [e], n, coder, hash) == RunTo(h, x, n, coder, hash)
  {
    hide SingleSpec.Handle;
    if n > 0 {
      RunToAppend(h, x, e, n - 1, coder, hash);
    }
  }

  /** Before EOF both of them end the transfer with an error. */
  lemma BeforeEofClosesAreFatal(h: Single, e: SingleSpec.Event, coder: Coder, hash: bytes -> Digest)
    requires CoreSpec.Valid(h.core) && !h.eofSeen && (e.ChannelClosed? || (e.LoopFailed? && h.reading))
    ensures var c := SingleSpec.Handle(h, e, coder, hash).core;
            && c.done && (h.core.done ==> c == h.core)
            && (!h.core.done ==> EndedWith(h.core, c, if e.ChannelClosed? then ClosedEarly else LOOP_ERROR))
  {
  }

  /**
   * The verification that EOF starts: it goes on waiting while bytes are missing and the timer has not
   * fired, and ends an unfinished transfer otherwise, with nil and the file kept when nothing is wrong.
   */
  lemma FinishOutcome(h: Single, timedOut: bool, syncOk: bool, readOk: bool, coder: Coder, hash: bytes -> Digest)
    requires CoreSpec.Valid(h.core) && !h.core.done && h.pending > 0
    ensures var g := SingleSpec.Handle(h, Finish(timedOut, syncOk, readOk), coder, hash);
            var fault := VerifyFault(h.core, timedOut, syncOk, readOk, hash);
            if h.core.meta.Some? && !timedOut && !h.core.allBytes then g == h
            else
              && g == h.(core := g.core, pending := h.pending - 1) && g.core.sink == h.core.sink
              && if fault.Some? then EndedWith(h.core, g.core, fault.value)
                 else g.core.done && g.core.result.None? && !g.core.removed
  {
    VerifyOutcome(h.core, timedOut, syncOk, readOk, hash);
    hide Verify, VerifyFault, CoreSpec.Valid;
  }

  const GOOD: Env := Env(true, true, Written)

  /** The receiver when the file's bytes before offset have been written. */
  ghost predicate Halfway(h: Single, file: bytes, coder: Coder, hash: bytes -> Digest, offset: nat) {
    && |file| < TWO63 && offset <= |file|
    && h.reading && !h.eofSeen && h.decoder == coder.Zstd? && h.pending == 0
    && h.core.meta == Some(MetaFor(file, coder, hash))
    && h.core.open && !h.core.done && h.core.result.None? && !h.core.removed && h.core.sized
    && |h.core.sink| == |file| && h.core.sink[..offset] == file[..offset]
    && h.core.bytesWritten == h.core.accepted == offset
    && (h.core.allBytes <==> offset >= |file|)
  }

  lemma MetadataArrives(contents: bytes, hasPath: bool, file: bytes, coder: Coder, hash: bytes -> Digest)
    requires |file| < TWO63
    ensures Halfway(SingleSpec.Handle(FreshSingle(contents, hasPath), Deliver(Wire(Meta(MetaFor(file, coder, hash))), GOOD),
                                      coder, hash),
                    file, coder, hash, 0)
  {
    hide Dispatch, Wire;
    RoundTrip(Meta(MetaFor(file, coder, hash)));
  }

  lemma PieceArrives(h: Single, file: bytes, coder: Coder, hash: bytes -> Digest, offset: nat)
    requires Halfway(h, file, coder, hash, offset) && offset < |file| && coder.Sound()
    ensures var n := PieceLen(|file|, offset);
            Halfway(SingleSpec.Handle(h, Deliver(Wire(Data(offset, coder.Encode(file[offset..offset + n]))), GOOD), coder, hash),
                    file, coder, hash, offset + n)
  {
    hide Dispatch, Wire, WriteChunk;
    var p := file[offset..offset + PieceLen(|file|, offset)];
    RoundTrip(Data(offset, coder.Encode(p)));
    assert h.decoder ==> coder.Decode(coder.Encode(p)) == Some(p);
    PieceWritten(h, file, coder, hash, offset);
  }

  lemma PieceWritten(h: Single, file: bytes, coder: Coder, hash: bytes -> Digest, offset: nat)
    requires Halfway(h, file, coder, hash, offset) && offset < |file|
    ensures var n := PieceLen(|file|, offset);
            var (c, err) := WriteChunk(h.core, offset, file[offset..offset + n], Written);
            err.None? && Halfway(h.(core := c), file, coder, hash, offset + n)
  {
    hide InBounds;
    var n := PieceLen(|file|, offset);
    var p := file[offset..offset + n];
    BoundsTestIsExact(offset, n, |file|);
    var sink := Overwrite(h.core.sink, offset, p);
    assert sink[..offset + n] == sink[..offset] + p;
    assert file[..offset + n] == file[..offset] + p;
  }

  /** The events from k on deliver ms, in order and without a fault. */
  ghost predicate DeliversAt(es: seq<SingleSpec.Event>, k: nat, ms: seq<bytes>) {
    k + |ms| <= |es| && forall i :: 0 <= i < |ms| ==> es[k + i] == Deliver(ms[i], GOOD)
  }

  lemma DeliversRest(es: seq<SingleSpec.Event>, k: nat, first: bytes, rest: seq<bytes>)
    requires DeliversAt(es, k, [first] + rest)
    ensures k < |es| && es[k] == Deliver(first, GOOD) && DeliversAt(es, k + 1, rest)
  {
    var ms := [first] + rest;
    assert es[k + 0] == Deliver(ms[0], GOOD);
    forall i | 0 <= i < |rest| ensures es[k + 1 + i] == Deliver(rest[i], GOOD) {
      assert es[k + (i + 1)] == Deliver(ms[i + 1], GOOD);
    }
  }

  /** Delivering the rest of the pieces, one message at a time, writes the rest of the file; then EOF. */
  lemma {:induction false} PiecesArrive(h: Single, es: seq<SingleSpec.Event>, k: nat,
                                        file: bytes, coder: Coder, hash: bytes -> Digest, offset: nat)
    requires coder.Sound() && |file| < TWO63
    requires DeliversAt(es, k, Producers.Messages(file, Producers.AtEof, coder, offset)) && k <= |es|
    requires Halfway(RunTo(h, es, k, coder, hash), file, coder, hash, offset)
    ensures var n := k + |Producers.Messages(file, Producers.AtEof, coder, offset)|;
            n <= |es| && Received(RunTo(h, es, n, coder, hash), file, coder, hash)
    decreases |file| - offset
  {
    hide Wire, Dispatch, SingleSpec.Handle, Halfway, Received;
    var ms := Producers.Messages(file, Producers.AtEof, coder, offset);
    var g := RunTo(h, es, k, coder, hash);
    assert offset <= |file| by { OffsetInFile(g, file, coder, hash, offset); }
    assert ms == [ms[0]] + ms[1..];
    DeliversRest(es, k, ms[0], ms[1..]);
    assert RunTo(h, es, k + 1, coder, hash) == SingleSpec.Handle(g, es[k], coder, hash);
    if offset < |file| {
      PieceArrives(g, file, coder, hash, offset);
      var n := PieceLen(|file|, offset);
      assert ms[1..] == Producers.Messages(file, Producers.AtEof, coder, offset + n);
      PiecesArrive(h, es, k + 1, file, coder, hash, offset + n);
    } else {
      EofArrives(g, file, coder, hash);
    }
  }

  lemma OffsetInFile(h: Single, file: bytes, coder: Coder, hash: bytes -> Digest, offset: nat)
    requires Halfway(h, file, coder, hash, offset)
    ensures offset <= |file|
  {
  }

  /** The receiver once EOF has been handled: the file is complete and a verification is pending. */
  ghost predicate Received(h: Single, file: bytes, coder: Coder, hash: bytes -> Digest) {
    && |file| < TWO63 && h.eofSeen && h.core.sink == file
    && h.core.meta == Some(MetaFor(file, coder, hash))
    && h.core.bytesWritten == |file| && h.core.allBytes && h.core.result.None? && !h.core.removed
    && (h.core.open <==> !h.core.done)
    && (!h.core.done ==> h.pending > 0)
  }

  lemma EofArrives(h: Single, file: bytes, coder: Coder, hash: bytes -> Digest)
    requires Halfway(h, file, coder, hash, |file|)
    ensures Received(SingleSpec.Handle(h, Deliver(Wire(Eof), GOOD), coder, hash), file, coder, hash)
  {
    hide Dispatch, Wire;
    RoundTrip(Eof);
    assert h.core.sink[..|file|] == h.core.sink && file[..|file|] == file;
  }

  /** What may still happen after EOF: closes, loop errors, and the verification itself. */
  ghost predicate IsLate(e: SingleSpec.Event) {
    e.ChannelClosed? || e.LoopFailed? || e == Finish(false, true, true)
  }

  lemma LateEvent(h: Single, e: SingleSpec.Event, file: bytes, coder: Coder, hash: bytes -> Digest)
    requires Received(h, file, coder, hash) && IsLate(e)
    ensures var g := SingleSpec.Handle(h, e, coder, hash);
            && Received(g, file, coder, hash)
            && (h.core.done || e.Finish? ==> g.core.done)
  {
  }

  lemma {:induction false} LateEvents(h: Single, es: seq<SingleSpec.Event>, k: nat, n: nat,
                                      file: bytes, coder: Coder, hash: bytes -> Digest)
    requires k <= n <= |es| && Received(RunTo(h, es, k, coder, hash), file, coder, hash)
    requires forall i :: k <= i < |es| ==> IsLate(es[i])
    ensures Received(RunTo(h, es, n, coder, hash), file, coder, hash)
    ensures (exists i :: k <= i < n && es[i].Finish?) ==> RunTo(h, es, n, coder, hash).core.done
  {
    hide Received, IsLate, SingleSpec.Handle;
    if k < n {
      LateEvents(h, es, k, n - 1, file, coder, hash);
      LateEvent(RunTo(h, es, n - 1, coder, hash), es[n - 1], file, coder, hash);
    }
  }

  /** Everything preTransfer and sendFile put on the wire. */
  ghost function Transmission(file: bytes, coder: Coder, hash: bytes -> Digest): seq<bytes>
    requires |file| < TWO64
  {
    [Wire(Meta(MetaFor(file, coder, hash)))] + Producers.Messages(file, Producers.AtEof, coder, 0)
  }

  /** From n on only late events happen, the verification among them. */
  ghost predicate EndsLate(es: seq<SingleSpec.Event>, n: nat) {
    (forall i :: n <= i < |es| ==> IsLate(es[i])) && (exists i :: n <= i < |es| && es[i].Finish?)
  }

  /**
   * End to end: what the sender puts on the wire, delivered in order to a fresh receiver and followed
   * by any closes, loop errors and the verification in any order, rebuilds the file exactly, with a
   * nil result and the output kept.
   */
  lemma SingleTransferIsExact(contents: bytes, hasPath: bool, file: bytes, coder: Coder, hash: bytes -> Digest,
                              es: seq<SingleSpec.Event>)
    requires coder.Sound() && |file| < TWO63
    requires DeliversAt(es, 0, Transmission(file, coder, hash)) && EndsLate(es, |Transmission(file, coder, hash)|)
    ensures var h := RunTo(FreshSingle(contents, hasPath), es, |es|, coder, hash);
            h.core.done && h.core.result.None? && h.core.sink == file && !h.core.removed
  {
    hide Wire, Dispatch, SingleSpec.Handle, RunTo, Received, DeliversAt, EndsLate, Transmission;
    var h, n := FreshSingle(contents, hasPath), |Transmission(file, coder, hash)|;
    AllDelivered(contents, hasPath, file, coder, hash, es);
    AllLate(h, es, n, file, coder, hash);
    Conclude(RunTo(h, es, |es|, coder, hash), file, coder, hash);
  }

  lemma AllDelivered(contents: bytes, hasPath: bool, file: bytes, coder: Coder, hash: bytes -> Digest,
                     es: seq<SingleSpec.Event>)
    requires coder.Sound() && |file| < TWO63 && DeliversAt(es, 0, Transmission(file, coder, hash))
    ensures var n := |Transmission(file, coder, hash)|;
            n <= |es| && Received(RunTo(FreshSingle(contents, hasPath), es, n, coder, hash), file, coder, hash)
  {
    var rest := Producers.Messages(file, Producers.AtEof, coder, 0);
    hide *;
    FirstIsMetadata(file, coder, hash, es);
    Opening(contents, hasPath, file, coder, hash, es);
    PiecesArrive(FreshSingle(contents, hasPath), es, 1, file, coder, hash, 0);
  }

  lemma FirstIsMetadata(file: bytes, coder: Coder, hash: bytes -> Digest, es: seq<SingleSpec.Event>)
    requires |file| < TWO63 && DeliversAt(es, 0, Transmission(file, coder, hash))
    ensures es != [] && es[0] == Deliver(Wire(Meta(MetaFor(file, coder, hash))), GOOD)
    ensures var rest := Producers.Messages(file, Producers.AtEof, coder, 0);
            DeliversAt(es, 1, rest) && |Transmission(file, coder, hash)| == 1 + |rest|
  {
    hide DeliversAt, Wire, Producers.Messages, MetaFor;
    DeliversRest(es, 0, Wire(Meta(MetaFor(file, coder, hash))), Producers.Messages(file, Producers.AtEof, coder, 0));
  }

  lemma Opening(contents: bytes, hasPath: bool, file: bytes, coder: Coder, hash: bytes -> Digest, es: seq<SingleSpec.Event>)
    requires |file| < TWO63 && es != [] && es[0] == Deliver(Wire(Meta(MetaFor(file, coder, hash))), GOOD)
    ensures Halfway(RunTo(FreshSingle(contents, hasPath), es, 1, coder, hash), file, coder, hash, 0)
  {
    hide Wire, Dispatch, SingleSpec.Handle, Halfway;
    var h := FreshSingle(contents, hasPath);
    MetadataArrives(contents, hasPath, file, coder, hash);
    assert RunTo(h, es, 0, coder, hash) == h;
    assert RunTo(h, es, 1, coder, hash) == SingleSpec.Handle(h, es[0], coder, hash);
  }

  lemma AllLate(h: Single, es: seq<SingleSpec.Event>, n: nat, file: bytes, coder: Coder, hash: bytes -> Digest)
    requires n <= |es| && Received(RunTo(h, es, n, coder, hash), file, coder, hash) && EndsLate(es, n)
    ensures Received(RunTo(h, es, |es|, coder, hash), file, coder, hash)
    ensures RunTo(h, es, |es|, coder, hash).core.done
  {
    hide Received, IsLate, RunTo;
    LateEvents(h, es, n, |es|, file, coder, hash);
  }

  lemma Conclude(h: Single, file: bytes, coder: Coder, hash: bytes -> Digest)
    requires Received(h, file, coder, hash)
    ensures h.core.result.None? && h.core.sink == file && !h.core.removed
  {
  }
}

/** The handler as the object the read loop drives. */
module SingleHandlers {
  import opened Bytes
  import opened Frames
  import opened Coders
  import opened CoreSpec
  import opened SingleSpec
  import opened ReceiverCore

  class SingleHandler {
    const core: TransferCore
    var decoder: bool
    var eofSeen: bool
    var pending: nat
    var reading: bool

    ghost function State(): Single
      reads this, core
    {
      Single(core.State(), decoder, eofSeen, pending, reading)
    }

    constructor (contents: bytes, hasPath: bool)
      ensures State() == FreshSingle(contents, hasPath) && fresh(core)
    {
      core := new TransferCore(contents, hasPath);
      decoder, eofSeen, pending, reading := false, false, 0, true;
    }

    method OnMetadata(m: Metadata, env: Env) returns (failed: bool)
      modifies this, core
      ensures forall coder :: (State(), failed) == OnFrame(old(State()), Meta(m), env, coder)
    {
      var err := core.HandleMetadata(m, env.truncateOk);
      if err.Some? {
        core.Fail(err.value);
        return true;
      }
      if m.codec == CODEC_ZSTD {
        if !env.decoderOk {
          core.Fail(DecoderFailed);
          return true;
        }
        decoder := true;
      }
      failed := false;
    }

    /** OnData with ingestData: decompress when a decoder exists, then write. */
    method OnData(offset: u64, payload: bytes, env: Env, coder: Coder) returns (failed: bool)
      requires |payload| < TWO64 && forall p :: coder.Decode(payload) == Some(p) ==> |p| < TWO64
      modifies this, core
      ensures (State(), failed) == OnFrame(old(State()), Data(offset, payload), env, coder)
    {
      var plain := if decoder then coder.Decode(payload) else Some(payload);
      if plain.None? {
        core.Fail(UndecodableData);
        return true;
      }
      var err := core.WriteChunk(offset, plain.value, env.writing);
      if err.Some? {
        core.Fail(err.value);
        return true;
      }
      failed := false;
    }

    method OnEOF() returns (failed: bool)
      modifies this, core
      ensures forall env, coder :: (State(), failed) == OnFrame(old(State()), Eof, env, coder)
    {
      if core.meta.None? {
        core.Fail(EOF_BEFORE_METADATA);
        return true;
      }
      if eofSeen {
        core.Fail(DUPLICATE_EOF);
        return true;
      }
      eofSeen := true;
      pending := pending + 1;
      failed := false;
    }

    method OnLoopError()
      modifies this, core
      ensures State() == SingleSpec.OnLoopError(old(State()))
    {
      if !eofSeen {
        core.Fail(LOOP_ERROR);
      }
      reading := false;
    }

    method FailOnEarlyClose()
      modifies core
      ensures forall coder, hash :: State() == SingleSpec.Handle(old(State()), ChannelClosed, coder, hash)
    {
      if eofSeen || core.done {
        return;
      }
      core.Fail(ClosedEarly);
    }

    /** One turn of the OnFrames loop. */
    method Receive(msg: bytes, env: Env, coder: Coder)
      requires |msg| < TWO64 && forall w, p :: coder.Decode(w) == Some(p) ==> |p| < TWO64
      modifies this, core
      ensures forall hash :: State() == SingleSpec.Handle(old(State()), Deliver(msg, env), coder, hash)
    {
      if !reading {
        return;
      }
      var d := Dispatch(msg);
      if d.Err? {
        OnLoopError();
        return;
      }
      var failed;
      match d.value {
        case Meta(m) => failed := OnMetadata(m, env);
        case Data(offset, payload) =>
          ReEncode(msg);
          failed := OnData(offset, payload, env, coder);
        case Eof => failed := OnEOF();
        case Abort(reason) =>
          core.Fail(Other(reason));
          failed := true;
        case _ => failed := true;
      }
      if failed {
        OnLoopError();
      }
    }
  }
}
