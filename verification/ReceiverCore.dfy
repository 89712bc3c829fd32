/**
 * The receive-side state machine (pkg/transfer/receiver/core.go) on values: what each entry point
 * does to the core, and what holds after any sequence of them.
 */
module CoreSpec {
  import opened Bytes
  import opened Frames

  datatype CoreError =
    | BadVersion | BadCodec | DuplicateMetadata | TruncateFailed
    | UndecodableData | DataBeforeMetadata | OutOfBounds | WriteFailed
    | VerifyBeforeMetadata | TimedOut | TooManyBytes | SyncFailed | HashReadFailed | IntegrityFailed
    | UnexpectedFrame | CompleteBeforeMetadata | DecoderFailed | NegotiationFailed | ClosedEarly
    | Other(reason: bytes)

  /** Fate of one WriteAt: complete, or failed after a prefix. */
  datatype Writing = Written | Failed(prefix: nat)

  datatype Core = Core(
    meta: Option<Metadata>,
    sink: bytes,            // contents of the output file
    open: bool,
    hasPath: bool,
    removed: bool,
    bytesWritten: u64,
    allBytes: bool,         // allBytesCh closed
    done: bool,             // done closed
    result: Option<CoreError>,
    cleanups: nat,          // how often the cleanup closure ran
    sized: bool,            // history: Truncate succeeded
    accepted: nat)          // history: payload bytes accepted, without wrap-around

  function Fresh(contents: bytes, hasPath: bool): Core {
    Core(None, contents, true, hasPath, false, 0, false, false, None, 0, false, 0)
  }

  /** Go's int64 conversion. */
  function Signed(n: u64): int { if n < TWO63 then n else n - TWO64 }

  function Resize(s: bytes, size: nat): (r: bytes)
    ensures |r| == size
  {
    if size <= |s| then s[..size] else s + seq(size - |s|, _ => 0)
  }

  function Overwrite(s: bytes, at: nat, p: bytes): (r: bytes)
    requires at + |p| <= |s|
    ensures |r| == |s|
  {
    s[..at] + p + s[at + |p|..]
  }

  // ---- Entry points ----

  /** handleMetadata. */
  function HandleMetadata(c: Core, m: Metadata, truncateOk: bool): (Core, Option<CoreError>) {
    if m.version != PROTOCOL_VERSION then (c, Some(BadVersion))
    else if m.codec != CODEC_NONE && m.codec != CODEC_ZSTD then (c, Some(BadCodec))
    else if c.meta.Some? then (c, Some(DuplicateMetadata))
    else if Signed(m.fileSize) < 0 || !c.open || !truncateOk then (c.(meta := Some(m)), Some(TruncateFailed))
    else (c.(meta := Some(m), sink := Resize(c.sink, m.fileSize), sized := true, allBytes := c.allBytes || m.fileSize == 0), None)
  }

  /** Whether writeChunk's 64-bit test lets the write through. */
  predicate InBounds(offset: u64, len: nat, size: u64) {
    var end := (offset + len) % TWO64;
    !(end < offset || end > size)
  }

  /** writeChunk; the file must be open, and large enough unless METADATA's Truncate failed. */
  function WriteChunk(c: Core, offset: u64, p: bytes, w: Writing): (Core, Option<CoreError>) {
    if c.meta.None? then (c, Some(DataBeforeMetadata))
    else if !InBounds(offset, |p|, c.meta.value.fileSize) then (c, Some(OutOfBounds))
    else if !c.open || Signed(offset) < 0 || offset + |p| > |c.sink| then (c, Some(WriteFailed))
    else if w.Failed? then
      (c.(sink := if w.prefix < |p| then Overwrite(c.sink, offset, p[..w.prefix]) else c.sink), Some(WriteFailed))
    else
      var n := (c.bytesWritten + |p|) % TWO64;
      (c.(sink := Overwrite(c.sink, offset, p), bytesWritten := n, accepted := c.accepted + |p|,
          allBytes := c.allBytes || n >= c.meta.value.fileSize),
       None)
  }

  function AbortFile(c: Core): Core { c.(open := false, removed := c.hasPath) }

  /** fail: the body of doneOnce runs for the first caller only. */
  function Fail(c: Core, e: CoreError): Core {
    if c.done then c else AbortFile(c.(result := Some(e), cleanups := c.cleanups + 1)).(done := true)
  }

  /** verifyIntegrity's verdict on the file, for a read that succeeds or fails. */
  function Integrity(c: Core, m: Metadata, readOk: bool, hash: bytes -> Digest): Option<CoreError> {
    if !readOk then Some(HashReadFailed)
    else if hash(c.sink) != m.sha256 then Some(IntegrityFailed)
    else None
  }

  /** verifyAndClose; while neither channel is closed and the timer has not fired it keeps waiting. */
  function Verify(c: Core, timedOut: bool, syncOk: bool, readOk: bool, hash: bytes -> Digest): Core {
    if c.meta.None? then Fail(c, VerifyBeforeMetadata)
    else if c.done then c
    else if timedOut then Fail(c, TimedOut)
    else if !c.allBytes then c
    else if c.bytesWritten > c.meta.value.fileSize then Fail(c, TooManyBytes)
    else
      var c1 := c.(cleanups := c.cleanups + 1);
      var verdict := if !syncOk then Some(SyncFailed) else Integrity(c, c.meta.value, readOk, hash);
      match verdict
      case Some(e) => AbortFile(c1.(result := Some(e))).(done := true)
      case None => c1.(open := false, done := true)
  }

  // ---- Runs ----

  /** What can reach the core, in any order and number; data comes decompressed. */
  datatype Event =
    | OnMetadata(m: Metadata, truncateOk: bool)
    | OnData(offset: u64, payload: bytes, writing: Writing)
    | OnFailure(e: CoreError)
    | OnVerify(timedOut: bool, syncOk: bool, readOk: bool)

  /** One event; the handlers turn an entry point's error into fail. */
  function Handle(c: Core, e: Event, hash: bytes -> Digest): Core {
    match e
    case OnMetadata(m, ok) =>
      var (c1, err) := HandleMetadata(c, m, ok);
      if err.Some? then Fail(c1, err.value) else c1
    case OnData(offset, p, w) =>
      var (c1, err) := WriteChunk(c, offset, p, w);
      if err.Some? then Fail(c1, err.value) else c1
    case OnFailure(err) => Fail(c, err)
    case OnVerify(t, s, r) => Verify(c, t, s, r, hash)
  }

  function Run(c: Core, es: seq<Event>, hash: bytes -> Digest): Core {
    if es == [] then c else Handle(Run(c, es[..|es| - 1], hash), es[|es| - 1], hash)
  }

  // ---- Invariant ----

  ghost predicate Valid(c: Core) {
    && c.bytesWritten == c.accepted % TWO64
    && (c.meta.None? ==> c.accepted == 0 && !c.allBytes && !c.sized)
    && (c.sized ==>
          && c.meta.Some? && |c.sink| == c.meta.value.fileSize < TWO63
          && (c.allBytes <==> c.accepted >= c.meta.value.fileSize))
    && (c.open <==> !c.done)
    && c.cleanups == (if c.done then 1 else 0)
    && (!c.done ==> c.result.None? && (c.meta.Some? ==> c.sized))
    && (c.removed <==> c.result.Some? && c.hasPath)
    && (c.done && c.result.None? ==> c.sized && c.allBytes)
  }

  /** The 64-bit test accepts exactly the writes whose true end lies within the file. */
  lemma BoundsTestIsExact(offset: u64, len: nat, size: u64)
    requires len < TWO64
    ensures InBounds(offset, len, size) <==> offset + len <= size
  {
  }

  /** Any event, from an honest or a dishonest peer, keeps the core consistent. */
  lemma HandleKeepsValid(c: Core, e: Event, hash: bytes -> Digest)
    requires Valid(c) && (e.OnData? ==> |e.payload| < TWO64)
    ensures Valid(Handle(c, e, hash)) && Handle(c, e, hash).hasPath == c.hasPath
  {
    hide Resize, Overwrite, InBounds, Integrity, WriteChunk, Verify, HandleMetadata;
    match e {
      case OnMetadata(m, ok) => MetadataKeepsValid(c, m, ok);
      case OnData(offset, p, w) => WriteKeepsValid(c, offset, p, w);
      case OnVerify(t, s, r) => VerifyKeepsValid(c, t, s, r, hash);
      case _ =>
    }
  }

  /** METADATA is accepted, or refused without a trace, or ends the transfer. */
  lemma MetadataKeepsValid(c: Core, m: Metadata, ok: bool)
    requires Valid(c)
    ensures var (d, err) := HandleMetadata(c, m, ok);
            var e := if err.Some? then Fail(d, err.value) else d;
            Valid(e) && e.hasPath == c.hasPath
  {
    hide Resize;
  }

  lemma VerifyKeepsValid(c: Core, timedOut: bool, syncOk: bool, readOk: bool, hash: bytes -> Digest)
    requires Valid(c)
    ensures var d := Verify(c, timedOut, syncOk, readOk, hash); Valid(d) && d.hasPath == c.hasPath
  {
    hide Integrity;
  }

  /** Counting modulo 2^64 still notices the moment the true sum reaches the size. */
  lemma CountStep(accepted: nat, len: nat, size: nat)
    requires len <= size < TWO63
    ensures (accepted % TWO64 + len) % TWO64 == (accepted + len) % TWO64
    ensures accepted >= size || (accepted + len) % TWO64 >= size <==> accepted + len >= size
  {
  }

  lemma WriteKeepsValid(c: Core, offset: u64, p: bytes, w: Writing)
    requires Valid(c) && |p| < TWO64
    ensures var (d, err) := WriteChunk(c, offset, p, w);
            Valid(d) && d.hasPath == c.hasPath
  {
    hide Overwrite, InBounds;
    if c.meta.Some? { BoundsTestIsExact(offset, |p|, c.meta.value.fileSize); }
    if c.sized && InBounds(offset, |p|, c.meta.value.fileSize) {
      CountStep(c.accepted, |p|, c.meta.value.fileSize);
    }
  }

  ghost predicate PayloadsFit(es: seq<Event>) { forall e :: e in es && e.OnData? ==> |e.payload| < TWO64 }

  lemma {:induction false} RunIsValid(contents: bytes, hasPath: bool, es: seq<Event>, hash: bytes -> Digest)
    requires PayloadsFit(es)
    ensures Valid(Run(Fresh(contents, hasPath), es, hash))
    ensures Run(Fresh(contents, hasPath), es, hash).hasPath == hasPath
  {
    if es != [] {
      RunIsValid(contents, hasPath, es[..|es| - 1], hash);
      HandleKeepsValid(Run(Fresh(contents, hasPath), es[..|es| - 1], hash), es[|es| - 1], hash);
    }
  }

  /** Total length of the payloads of es that a core starting as c accepts. */
  ghost function AcceptedBytes(c: Core, es: seq<Event>, hash: bytes -> Digest): nat {
    if es == [] then 0
    else
      var p, e := es[..|es| - 1], es[|es| - 1];
      AcceptedBytes(c, p, hash)
      + if e.OnData? && WriteChunk(Run(c, p, hash), e.offset, e.payload, e.writing).1.None? then |e.payload| else 0
  }

  lemma AcceptedOne(c: Core, e: Event, hash: bytes -> Digest)
    ensures Handle(c, e, hash).accepted
         == c.accepted + if e.OnData? && WriteChunk(c, e.offset, e.payload, e.writing).1.None? then |e.payload| else 0
  {
    hide Resize, Overwrite, InBounds, Fail, Verify;
    match e {
      case OnMetadata(m, ok) =>
        var (c1, err) := HandleMetadata(c, m, ok);
        if err.Some? { FailKeeps(c1, err.value); }
      case OnData(offset, p, w) =>
        var (c1, err) := WriteChunk(c, offset, p, w);
        if err.Some? { FailKeeps(c1, err.value); }
      case OnFailure(err) => FailKeeps(c, err);
      case OnVerify(t, s, r) => VerifyKeeps(c, t, s, r, hash);
    }
  }

  lemma FailKeeps(c: Core, e: CoreError)
    ensures Fail(c, e).accepted == c.accepted && Fail(c, e).sink == c.sink && Fail(c, e).meta == c.meta
  {
  }

  lemma VerifyKeeps(c: Core, timedOut: bool, syncOk: bool, readOk: bool, hash: bytes -> Digest)
    ensures var d := Verify(c, timedOut, syncOk, readOk, hash);
            d.accepted == c.accepted && d.sink == c.sink && d.meta == c.meta
  {
    hide Integrity, Fail;
    FailKeeps(c, VerifyBeforeMetadata);
    FailKeeps(c, TimedOut);
    FailKeeps(c, TooManyBytes);
  }

  lemma {:induction false} AcceptedIsTheSum(c: Core, es: seq<Event>, hash: bytes -> Digest)
    ensures Run(c, es, hash).accepted == c.accepted + AcceptedBytes(c, es, hash)
  {
    if es != [] {
      AcceptedIsTheSum(c, es[..|es| - 1], hash);
      AcceptedOne(Run(c, es[..|es| - 1], hash), es[|es| - 1], hash);
    }
  }

  /**
   * After any sequence of frames, failures and verifications: once METADATA has succeeded the file
   * keeps the announced size, the counter is the 64-bit sum of the accepted payload lengths, and
   * allBytesCh is closed exactly when the true sum has reached the size.
   */
  lemma ArbitraryFrames(contents: bytes, hasPath: bool, es: seq<Event>, hash: bytes -> Digest)
    requires PayloadsFit(es)
    ensures var c, total := Run(Fresh(contents, hasPath), es, hash), AcceptedBytes(Fresh(contents, hasPath), es, hash);
            && c.bytesWritten == total % TWO64
            && (c.sized ==> c.meta.Some? && |c.sink| == c.meta.value.fileSize
                            && (c.allBytes <==> total >= c.meta.value.fileSize))
  {
    RunIsValid(contents, hasPath, es, hash);
    AcceptedIsTheSum(Fresh(contents, hasPath), es, hash);
  }

  /** After done nothing changes the file, the result, or the number of cleanups. */
  lemma DoneIsFinal(c: Core, e: Event, hash: bytes -> Digest)
    requires Valid(c) && c.done
    ensures var d := Handle(c, e, hash);
            d.done && d.sink == c.sink && d.result == c.result && d.removed == c.removed
            && d.open == c.open && d.cleanups == c.cleanups
  {
  }

  /** The first terminator decides: one cleanup, and the file stays exactly when the result is nil. */
  lemma {:induction false} FirstTerminatorDecides(c: Core, es: seq<Event>, n: nat, hash: bytes -> Digest)
    requires Valid(c) && PayloadsFit(es) && n <= |es| && Run(c, es[..n], hash).done
    ensures var d, f := Run(c, es[..n], hash), Run(c, es, hash);
            && f.done && f.result == d.result && f.sink == d.sink && f.cleanups == 1
            && (f.removed <==> f.result.Some? && f.hasPath)
    decreases |es|
  {
    RunKeepsValid(c, es, hash);
    if n == |es| {
      assert es[..n] == es;
    } else {
      var p := es[..|es| - 1];
      assert p[..n] == es[..n];
      FirstTerminatorDecides(c, p, n, hash);
      RunKeepsValid(c, p, hash);
      DoneIsFinal(Run(c, p, hash), es[|es| - 1], hash);
    }
  }

  lemma {:induction false} RunKeepsValid(c: Core, es: seq<Event>, hash: bytes -> Digest)
    requires Valid(c) && PayloadsFit(es)
    ensures Valid(Run(c, es, hash))
  {
    if es != [] {
      RunKeepsValid(c, es[..|es| - 1], hash);
      HandleKeepsValid(Run(c, es[..|es| - 1], hash), es[|es| - 1], hash);
    }
  }

  /** When frames are handled one at a time, a nil result means the file hashes to the announced digest. */
  lemma {:induction false} NilMeansVerified(contents: bytes, hasPath: bool, es: seq<Event>, hash: bytes -> Digest)
    requires PayloadsFit(es)
    ensures var c := Run(Fresh(contents, hasPath), es, hash);
            c.done && c.result.None? ==>
              c.meta.Some? && hash(c.sink) == c.meta.value.sha256 && |c.sink| == c.meta.value.fileSize && !c.removed
  {
    if es != [] {
      var p, e := es[..|es| - 1], es[|es| - 1];
      NilMeansVerified(contents, hasPath, p, hash);
      RunIsValid(contents, hasPath, p, hash);
      RunIsValid(contents, hasPath, es, hash);
      var c := Run(Fresh(contents, hasPath), p, hash);
      if c.done { DoneIsFinal(c, e, hash); }
      DoneMeta(c, e, hash);
    }
  }

  lemma DoneMeta(c: Core, e: Event, hash: bytes -> Digest)
    requires Valid(c)
    ensures var d := Handle(c, e, hash);
            && (c.meta.Some? ==> d.meta == c.meta)
            && (!c.done && d.done && d.result.None? ==> d.meta.Some? && hash(d.sink) == d.meta.value.sha256)
  {
  }

  // ---- What one event does, in full ----

  /** Go's conversion to int64 keeps the number modulo 2^64 and the range of two's complement. */
  lemma SignedMeans(n: u64)
    ensures -0x8000_0000_0000_0000 <= Signed(n) < 0x8000_0000_0000_0000
    ensures (Signed(n) - n) % 0x1_0000_0000_0000_0000 == 0
  {
  }

  /** The transfer has ended with a failure: the output is closed, and removed if it has a path. */
  ghost predicate EndedWith(c: Core, d: Core, e: CoreError) {
    d.done && d.result == Some(e) && !d.open && (d.removed <==> c.hasPath) && d.cleanups == 1 && d.hasPath == c.hasPath
  }

  /** Why METADATA is refused, the first reason first. */
  function MetadataFault(c: Core, m: Metadata, truncateOk: bool): Option<CoreError> {
    if m.version != 1 then Some(BadVersion)
    else if m.codec != 0 && m.codec != 1 then Some(BadCodec)
    else if c.meta.Some? then Some(DuplicateMetadata)
    else if m.fileSize >= 0x8000_0000_0000_0000 || !truncateOk then Some(TruncateFailed)
    else None
  }

  /** METADATA that is accepted cuts the output to its size or fills it up with zeros; any other ends the transfer. */
  lemma MetadataOutcome(c: Core, m: Metadata, ok: bool, hash: bytes -> Digest)
    requires Valid(c) && !c.done
    ensures var d, fault := Handle(c, OnMetadata(m, ok), hash), MetadataFault(c, m, ok);
            if fault.Some? then EndedWith(c, d, fault.value) && d.sink == c.sink
            else
              && !d.done && d.meta == Some(m) && |d.sink| == m.fileSize && d.bytesWritten == 0
              && (d.allBytes <==> m.fileSize == 0)
              && forall k :: 0 <= k < |d.sink| ==> d.sink[k] == if k < |c.sink| then c.sink[k] else 0
  {
  }

  /** The output after a write of p at offset. */
  ghost predicate Patched(s: bytes, s': bytes, offset: nat, p: bytes) {
    |s'| == |s| && forall k :: 0 <= k < |s| ==> s'[k] == if offset <= k < offset + |p| then p[k - offset] else s[k]
  }

  lemma OverwriteMeans(s: bytes, at: nat, p: bytes)
    requires at + |p| <= |s|
    ensures Patched(s, Overwrite(s, at, p), at, p)
  {
  }

  /**
   * A decompressed frame is written whole when METADATA has come, its true end lies within the announced
   * size and the write succeeds; any other ends the transfer, with what a failing write has left behind.
   */
  lemma DataOutcome(c: Core, offset: u64, p: bytes, w: Writing, hash: bytes -> Digest)
    requires Valid(c) && !c.done && |p| < TWO64
    ensures var d := Handle(c, OnData(offset, p, w), hash);
            if c.meta.None? then EndedWith(c, d, DataBeforeMetadata) && d.sink == c.sink
            else if offset + |p| > c.meta.value.fileSize then EndedWith(c, d, OutOfBounds) && d.sink == c.sink
            else if w.Failed? then
              && EndedWith(c, d, WriteFailed)
              && Patched(c.sink, d.sink, offset, if w.prefix < |p| then p[..w.prefix] else [])
            else
              && !d.done && d.meta == c.meta && Patched(c.sink, d.sink, offset, p)
              && d.bytesWritten == (c.bytesWritten + |p|) % 0x1_0000_0000_0000_0000
              && (d.allBytes <==> c.accepted + |p| >= c.meta.value.fileSize)
  {
    WriteKeepsValid(c, offset, p, w);
    if c.meta.Some? {
      BoundsTestIsExact(offset, |p|, c.meta.value.fileSize);
      if offset + |p| <= c.meta.value.fileSize {
        OverwriteMeans(c.sink, offset, p);
        if w.Failed? && w.prefix < |p| { OverwriteMeans(c.sink, offset, p[..w.prefix]); }
      }
    }
    hide InBounds, Overwrite, Patched;
    if c.meta.Some? && offset + |p| <= c.meta.value.fileSize && w.Failed? && w.prefix >= |p| { NothingWritten(c.sink, offset); }
  }

  lemma NothingWritten(s: bytes, at: nat)
    ensures Patched(s, s, at, [])
  {
  }

  /** fail: only the first call does anything. */
  lemma FailOutcome(c: Core, e: CoreError)
    requires Valid(c)
    ensures c.done ==> Fail(c, e) == c
    ensures !c.done ==> EndedWith(c, Fail(c, e), e) && Fail(c, e).sink == c.sink
  {
  }

  /** Why a verification fails the transfer, the first reason first. */
  function VerifyFault(c: Core, timedOut: bool, syncOk: bool, readOk: bool, hash: bytes -> Digest): Option<CoreError> {
    if c.meta.None? then Some(VerifyBeforeMetadata)
    else if timedOut then Some(TimedOut)
    else if c.bytesWritten > c.meta.value.fileSize then Some(TooManyBytes)
    else if !syncOk then Some(SyncFailed)
    else if !readOk then Some(HashReadFailed)
    else if hash(c.sink) != c.meta.value.sha256 then Some(IntegrityFailed)
    else None
  }

  /**
   * verifyAndClose before the end: it keeps waiting while bytes are missing and the timer has not fired;
   * otherwise it ends the transfer, with nil and the output kept when nothing is wrong.
   */
  lemma VerifyOutcome(c: Core, timedOut: bool, syncOk: bool, readOk: bool, hash: bytes -> Digest)
    requires Valid(c) && !c.done
    ensures var d, fault := Handle(c, OnVerify(timedOut, syncOk, readOk), hash), VerifyFault(c, timedOut, syncOk, readOk, hash);
            && d.sink == c.sink
            && (c.meta.Some? && !timedOut && !c.allBytes ==> d == c)
            && (c.meta.None? || timedOut || c.allBytes ==>
                  if fault.Some? then EndedWith(c, d, fault.value)
                  else d.done && d.result.None? && !d.removed && !d.open && d.cleanups == 1)
  {
    VerifyKeeps(c, timedOut, syncOk, readOk, hash);
  }
}

/** The core as the object the handlers share, and the loop that hashes the finished file. */
module ReceiverCore {
  import opened Bytes
  import opened Frames
  import opened CoreSpec

  /** How a ReadAt call turns out: with an eager EOF at the very end of the file, or with an I/O error. */
  datatype ReadChoice = ReadChoice(eager: bool, fault: bool, short: nat)

  datatype ReadErr = NoErr | EndOfFile | IoErr

  const BLOCK: nat := 65_536

  /** io.ReaderAt on data: fills the buffer when it can, reports an error whenever it does not. */
  function ReadAt(data: bytes, offset: nat, ch: ReadChoice): (bytes, ReadErr)
    requires offset <= |data|
  {
    var n := if |data| - offset < BLOCK then |data| - offset else BLOCK;
    if ch.fault then
      (data[offset..offset + if ch.short < n then ch.short else n], IoErr)
    else if n < BLOCK || (ch.eager && offset + n == |data|) then (data[offset..offset + n], EndOfFile)
    else (data[offset..offset + n], NoErr)
  }

  function Choice(cs: seq<ReadChoice>, k: nat): ReadChoice {
    if k < |cs| then cs[k] else ReadChoice(false, false, 0)
  }

  /** Whether one of the calls that reading size bytes takes fails with an I/O error. */
  ghost predicate Faulty(cs: seq<ReadChoice>, size: nat) {
    exists k :: 0 <= k && k * 65_536 < size && Choice(cs, k).fault
  }

  /**
   * verifyIntegrity: on a file of the announced size it hashes every byte once, in order, and accepts
   * exactly when no read fails and the digest matches; a shorter file is always rejected.
   */
  method VerifyIntegrity(data: bytes, size: nat, expected: Digest, hash: bytes -> Digest, cs: seq<ReadChoice>)
    returns (err: Option<CoreError>, ghost hashed: bytes)
    ensures |data| < size ==> err.Some?
    ensures |data| == size ==>
              err == (if Faulty(cs, size) then Some(HashReadFailed)
                      else if hash(data) != expected then Some(IntegrityFailed) else None)
    ensures |data| == size && !Faulty(cs, size) ==> hashed == data
    ensures hashed <= data
    ensures err.None? ==> |hashed| >= size && hash(hashed) == expected
  {
    var hasher: bytes := [];
    hashed := [];
    var offset, k := 0, 0;
    while offset < size
      invariant offset <= |data| && hasher == data[..offset]
      invariant offset == k * 65_536 || (offset == |data| && |data| < k * 65_536)
      invariant offset < size ==> offset == k * 65_536
      invariant forall j :: 0 <= j < k ==> !Choice(cs, j).fault
      decreases size - offset
    {
      var choice := Choice(cs, k);
      var (part, e) := ReadAt(data, offset, choice);
      if |part| > 0 {
        assert data[..offset + |part|] == data[..offset] + part;
        hasher := hasher + part;
        offset := offset + |part|;
      }
      k := k + 1;
      if e != NoErr {
        if e == EndOfFile && offset == size {
          break;
        }
        hashed := hasher;
        if choice.fault { FaultAt(cs, size, k - 1); }
        return Some(HashReadFailed), hashed;
      }
    }
    hashed := hasher;
    assert data[..|data|] == data;
    if |data| == size { NoFaults(cs, size, k); }
    err := if hash(hasher) != expected then Some(IntegrityFailed) else None;
  }

  lemma FaultAt(cs: seq<ReadChoice>, size: nat, k: nat)
    requires k * 65_536 < size && Choice(cs, k).fault
    ensures Faulty(cs, size)
  {
  }

  lemma NoFaults(cs: seq<ReadChoice>, size: nat, k: nat)
    requires size <= k * 65_536 && forall j :: 0 <= j < k ==> !Choice(cs, j).fault
    ensures !Faulty(cs, size)
  {
  }

  class TransferCore {
    var meta: Option<Metadata>
    var sink: bytes
    var open: bool
    const hasPath: bool
    var removed: bool
    var bytesWritten: u64
    var allBytes: bool
    var done: bool
    var result: Option<CoreError>
    var cleanups: nat
    ghost var sized: bool
    ghost var accepted: nat

    ghost function State(): Core
      reads this
    {
      Core(meta, sink, open, hasPath, removed, bytesWritten, allBytes, done, result, cleanups, sized, accepted)
    }

    constructor (contents: bytes, hasPath: bool)
      ensures State() == Fresh(contents, hasPath) && CoreSpec.Valid(State())
    {
      this.hasPath := hasPath;
      meta, sink, open, removed, bytesWritten := None, contents, true, false, 0;
      allBytes, done, result, cleanups := false, false, None, 0;
      sized, accepted := false, 0;
    }

    method HandleMetadata(m: Metadata, truncateOk: bool) returns (err: Option<CoreError>)
      modifies this
      ensures (State(), err) == CoreSpec.HandleMetadata(old(State()), m, truncateOk)
    {
      if m.version != PROTOCOL_VERSION {
        return Some(BadVersion);
      }
      if m.codec != CODEC_NONE && m.codec != CODEC_ZSTD {
        return Some(BadCodec);
      }
      if meta.Some? {
        return Some(DuplicateMetadata);
      }
      meta := Some(m);
      if Signed(m.fileSize) < 0 || !open || !truncateOk {
        return Some(TruncateFailed);
      }
      sink, sized := Resize(sink, m.fileSize), true;
      if m.fileSize == 0 {
        allBytes := true;
      }
      err := None;
    }

    /** writeChunk: rejects exactly the writes that would leave the announced size. */
    method WriteChunk(offset: u64, payload: bytes, w: Writing) returns (err: Option<CoreError>)
      requires |payload| < TWO64
      modifies this
      ensures (State(), err) == CoreSpec.WriteChunk(old(State()), offset, payload, w)
      ensures err == Some(OutOfBounds) <==> old(meta).Some? && offset + |payload| > old(meta).value.fileSize
    {
      if meta.None? {
        return Some(DataBeforeMetadata);
      }
      BoundsTestIsExact(offset, |payload|, meta.value.fileSize);
      var end := (offset + |payload|) % TWO64;
      if end < offset || end > meta.value.fileSize {
        return Some(OutOfBounds);
      }
      if !open || Signed(offset) < 0 || offset + |payload| > |sink| {
        return Some(WriteFailed);
      }
      if w.Failed? {
        if w.prefix < |payload| {
          sink := Overwrite(sink, offset, payload[..w.prefix]);
        }
        return Some(WriteFailed);
      }
      sink := Overwrite(sink, offset, payload);
      var newBytes := (bytesWritten + |payload|) % TWO64;
      bytesWritten, accepted := newBytes, accepted + |payload|;
      if newBytes >= meta.value.fileSize {
        allBytes := true;
      }
      err := None;
    }

    method Fail(e: CoreError)
      modifies this
      ensures State() == CoreSpec.Fail(old(State()), e)
    {
      if !done {
        result := Some(e);
        cleanups := cleanups + 1;
        AbortFile();
        done := true;
      }
    }

    method AbortFile()
      modifies this`open, this`removed
      ensures State() == CoreSpec.AbortFile(old(State()))
    {
      open := false;
      removed := hasPath;
    }

    /** verifyAndClose, run to the end with the given outcomes of waiting, syncing and reading back. */
    method VerifyAndClose(timedOut: bool, syncOk: bool, hash: bytes -> Digest, cs: seq<ReadChoice>)
      requires CoreSpec.Valid(State())
      modifies this
      ensures State() == Verify(old(State()), timedOut, syncOk,
                                old(meta).Some? ==> !Faulty(cs, old(meta).value.fileSize), hash)
    {
      if meta.None? {
        Fail(VerifyBeforeMetadata);
        return;
      }
      if done {
        return;
      }
      if timedOut {
        Fail(TimedOut);
        return;
      }
      if !allBytes {
        return;
      }
      if bytesWritten > meta.value.fileSize {
        Fail(TooManyBytes);
        return;
      }
      cleanups := cleanups + 1;
      if !syncOk {
        result := Some(SyncFailed);
        AbortFile();
        done := true;
        return;
      }
      var err, _ := VerifyIntegrity(sink, meta.value.fileSize, meta.value.sha256, hash, cs);
      if err.Some? {
        result := err;
        AbortFile();
        done := true;
        return;
      }
      open := false;
      done := true;
    }
  }
}
