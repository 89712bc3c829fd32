/**
 * The wire format of one data-channel message (internal/protocol): encoders that fill byte
 * buffers in place, decoders, and the dispatch that turns a message into a handler call.
 */
module Frames {
  import opened Bytes

  type Digest = s: bytes | |s| == 32 witness seq(32, _ => 0)

  datatype Metadata = Metadata(version: byte, codec: byte, fileSize: u64, sha256: Digest)

  const PROTOCOL_VERSION: byte := 0x01
  const CODEC_NONE: byte := 0x00
  const CODEC_ZSTD: byte := 0x01

  /** One frame, or equally the handler call it is dispatched to with that call's arguments. */
  datatype Frame =
    | Meta(meta: Metadata)
    | Data(offset: u64, payload: bytes)
    | Eof
    | Abort(reason: bytes)
    | Offer(id: byte, sdp: bytes)
    | Answer(id: byte, sdp: bytes)
    | Complete

  /** SlicePanic: the run-time failure of a slice expression whose end lies before its start. */
  datatype Error = Truncated | UnknownType(tag: byte) | SlicePanic

  // ---- Layout ----

  function Tag(f: Frame): byte {
    match f
    case Meta(_) => 0x01
    case Data(_, _) => 0x02
    case Eof => 0x03
    case Abort(_) => 0x04
    case Offer(_, _) => 0x05
    case Answer(_, _) => 0x06
    case Complete => 0x07
  }

  /** Layout of a frame's body (everything after the type byte). */
  function Body(f: Frame): bytes {
    match f
    case Meta(m) => [m.version, m.codec] + PutBE(m.fileSize, 8) + m.sha256
    case Data(offset, payload) => PutBE(offset, 8) + payload
    case Abort(reason) => reason
    case Offer(id, sdp) => PeerBody(id, PutBE(|sdp|, 4), sdp)
    case Answer(id, sdp) => PeerBody(id, PutBE(|sdp|, 4), sdp)
    case Eof => []
    case Complete => []
  }

  function Wire(f: Frame): bytes { [Tag(f)] + Body(f) }

  predicate IsPeerFrame(f: Frame) { f.Offer? || f.Answer? }

  /** Types whose decoder uses the whole body; the others ignore what follows their fields. */
  predicate IsStrict(f: Frame) { f.Meta? || f.Data? || f.Abort? }

  // ---- Decoding ----

  function DecodeMetadata(body: bytes): Result<Metadata, Error> {
    if |body| != 42 then Err(Truncated)
    else
      GetBEBound(body[2..10]);
      Ranges();
      Ok(Metadata(body[0], body[1], GetBE(body[2..10]), body[10..42]))
  }

  function DecodeData(body: bytes): Result<(u64, bytes), Error> {
    if |body| < 8 then Err(Truncated)
    else
      GetBEBound(body[..8]);
      Ranges();
      Ok((GetBE(body[..8]), body[8..]))
  }

  /** The length test and the slice end are computed in 32 bits, as in the source. */
  function DecodePeerSDP(body: bytes): Result<(byte, bytes), Error> {
    if |body| < 5 then Err(Truncated)
    else
      var sdpLen := GetBE(body[1..5]);
      var end := (5 + sdpLen) % TWO32;
      if (|body| - 5) % TWO32 < sdpLen then Err(Truncated)
      else if end < 5 || end > |body| then Err(SlicePanic)
      else Ok((body[0], body[5..end]))
  }

  /** Dispatch: the handler call a message leads to. */
  function Dispatch(msg: bytes): Result<Frame, Error> {
    if |msg| < 1 then Err(Truncated)
    else
      var body := msg[1..];
      match msg[0]
      case 0x01 => (match DecodeMetadata(body) case Ok(m) => Ok(Meta(m)) case Err(e) => Err(e))
      case 0x02 => (match DecodeData(body) case Ok(d) => Ok(Data(d.0, d.1)) case Err(e) => Err(e))
      case 0x03 => Ok(Eof)
      case 0x04 => Ok(Abort(body))
      case 0x05 => (match DecodePeerSDP(body) case Ok(p) => Ok(Offer(p.0, p.1)) case Err(e) => Err(e))
      case 0x06 => (match DecodePeerSDP(body) case Ok(p) => Ok(Answer(p.0, p.1)) case Err(e) => Err(e))
      case 0x07 => Ok(Complete)
      case t => Err(UnknownType(t))
  }

  // ---- What dispatch accepts ----

  /**
   * msg carries f: it starts with f's encoding, ends with it when f's type uses the whole body,
   * and the 32-bit length arithmetic of a peer frame does not wrap around.
   */
  ghost predicate Carries(msg: bytes, f: Frame) {
    && Wire(f) <= msg
    && (IsStrict(f) ==> msg == Wire(f))
    && (IsPeerFrame(f) ==> 5 + |f.sdp| < TWO32 && |f.sdp| <= (|msg| - 6) % TWO32)
  }

  lemma MetadataExact(body: bytes, m: Metadata)
    ensures DecodeMetadata(body) == Ok(m) <==> body == Body(Meta(m))
  {
    Ranges();
    if |body| == 42 {
      PutGetBE(body[2..10]);
      assert body == body[..2] + body[2..10] + body[10..42];
    }
    var b := Body(Meta(m));
    GetPutBE(m.fileSize, 8);
    assert |b| == 42 && b[2..10] == PutBE(m.fileSize, 8) && b[10..42] == m.sha256;
  }

  lemma DataExact(body: bytes, offset: u64, payload: bytes)
    ensures DecodeData(body) == Ok((offset, payload)) <==> body == Body(Data(offset, payload))
  {
    Ranges();
    if |body| >= 8 {
      PutGetBE(body[..8]);
      assert body == body[..8] + body[8..];
    }
    var b := Body(Data(offset, payload));
    GetPutBE(offset, 8);
    assert b[..8] == PutBE(offset, 8) && b[8..] == payload;
  }

  function PeerBody(id: byte, length: bytes, sdp: bytes): bytes { [id] + length + sdp }

  lemma PeerFields(id: byte, length: bytes, sdp: bytes, rest: bytes)
    requires |length| == 4
    ensures var b := PeerBody(id, length, sdp) + rest;
            |b| == 5 + |sdp| + |rest| && b[0] == id && b[1..5] == length && b[5..5 + |sdp|] == sdp
  {
  }

  lemma PeerSplit(body: bytes, n: nat)
    requires 5 + n <= |body|
    ensures body == PeerBody(body[0], body[1..5], body[5..5 + n]) + body[5 + n..]
  {
  }

  lemma PeerDecoded(body: bytes)
    requires DecodePeerSDP(body).Ok?
    ensures var p := DecodePeerSDP(body).value;
            && PeerBody(p.0, PutBE(|p.1|, 4), p.1) <= body
            && 5 + |p.1| < TWO32 && |p.1| <= (|body| - 5) % TWO32
  {
    hide GetBE, PutBE, PeerBody;
    Ranges();
    GetBEBound(body[1..5]);
    PutGetBE(body[1..5]);
    var n := GetBE(body[1..5]);
    assert 5 + n < TWO32;
    PeerSplit(body, n);
  }

  lemma PeerSlice(body: bytes, n: nat)
    requires 5 + n <= |body| && 5 + n < TWO32 && n <= (|body| - 5) % TWO32 && GetBE(body[1..5]) == n
    ensures DecodePeerSDP(body) == Ok((body[0], body[5..5 + n]))
  {
    hide GetBE;
  }

  lemma PrefixSplit(p: bytes, s: bytes)
    requires p <= s
    ensures s == p + s[|p|..]
  {
  }

  lemma PeerEncoded(body: bytes, id: byte, sdp: bytes)
    requires PeerBody(id, PutBE(|sdp|, 4), sdp) <= body
    requires 5 + |sdp| < TWO32 && |sdp| <= (|body| - 5) % TWO32
    ensures DecodePeerSDP(body) == Ok((id, sdp))
  {
    hide DecodePeerSDP, GetBE, PutBE;
    Ranges();
    GetPutBE(|sdp|, 4);
    var p := PeerBody(id, PutBE(|sdp|, 4), sdp);
    PrefixSplit(p, body);
    PeerFields(id, PutBE(|sdp|, 4), sdp, body[|p|..]);
    PeerSlice(body, |sdp|);
  }

  lemma PeerExact(body: bytes, id: byte, sdp: bytes)
    ensures DecodePeerSDP(body) == Ok((id, sdp)) <==>
            && PeerBody(id, PutBE(|sdp|, 4), sdp) <= body
            && 5 + |sdp| < TWO32 && |sdp| <= (|body| - 5) % TWO32
  {
    if DecodePeerSDP(body) == Ok((id, sdp)) { PeerDecoded(body); }
    if && PeerBody(id, PutBE(|sdp|, 4), sdp) <= body
       && 5 + |sdp| < TWO32 && |sdp| <= (|body| - 5) % TWO32 {
      PeerEncoded(body, id, sdp);
    }
  }

  lemma ConsPrefix(tag: byte, b: bytes, msg: bytes)
    requires |msg| >= 1
    ensures [tag] + b <= msg <==> msg[0] == tag && b <= msg[1..]
    ensures msg == [tag] + b <==> msg[0] == tag && b == msg[1..]
  {
    var w := [tag] + b;
    assert w[0] == tag && w[1..] == b && msg == [msg[0]] + msg[1..];
    if w <= msg { assert b == msg[..|w|][1..] == msg[1..][..|b|]; }
  }

  lemma BodyOf(f: Frame)
    ensures f.Abort? ==> Body(f) == f.reason
    ensures f.Eof? || f.Complete? ==> Body(f) == []
    ensures IsPeerFrame(f) ==> Body(f) == PeerBody(f.id, PutBE(|f.sdp|, 4), f.sdp)
  {
  }

  /** Dispatch calls the handler of f with f's fields exactly when the message carries f. */
  lemma DispatchExact(msg: bytes, f: Frame)
    ensures Dispatch(msg) == Ok(f) <==> Carries(msg, f)
  {
    hide DecodeMetadata, DecodeData, DecodePeerSDP, Body;
    if |msg| >= 1 {
      var body := msg[1..];
      ConsPrefix(Tag(f), Body(f), msg);
      BodyOf(f);
      match f
      case Meta(m) => MetadataExact(body, m);
      case Data(o, p) => DataExact(body, o, p);
      case Offer(id, sdp) => PeerExact(body, id, sdp);
      case Answer(id, sdp) => PeerExact(body, id, sdp);
      case _ =>
    }
  }

  /** Encoding then dispatching returns the frame, for exactly the frames whose length fits 32 bits. */
  lemma RoundTrip(f: Frame)
    ensures Dispatch(Wire(f)) == Ok(f) <==> (IsPeerFrame(f) ==> |f.sdp| + 5 < TWO32)
  {
    hide Dispatch;
    BodyOf(f);
    DispatchExact(Wire(f), f);
  }

  /** A dispatched message re-encodes to itself (METADATA, DATA, ABORT) or to a prefix of itself. */
  lemma ReEncode(msg: bytes)
    requires Dispatch(msg).Ok?
    ensures var f := Dispatch(msg).value; Wire(f) <= msg && (IsStrict(f) ==> Wire(f) == msg)
  {
    DispatchExact(msg, Dispatch(msg).value);
  }

  /**
   * Which error a message without a frame gets: a type outside 1 to 7 is named; a peer frame whose
   * announced length makes the 32-bit end of the description wrap around, or leave the message, is a
   * slice panic; everything else is too short, or METADATA of the wrong length.
   */
  lemma DispatchErrors(msg: bytes)
    ensures Dispatch(msg) == Err(UnknownType(if msg == [] then 0 else msg[0])) <==> msg != [] && !(1 <= msg[0] <= 7)
    ensures Dispatch(msg) == Err(SlicePanic) <==>
              && |msg| >= 6 && (msg[0] == 5 || msg[0] == 6)
              && GetBE(msg[2..6]) <= (|msg| - 6) % 0x1_0000_0000
              && (5 + GetBE(msg[2..6]) >= 0x1_0000_0000 || 5 + GetBE(msg[2..6]) > |msg| - 1)
    ensures Dispatch(msg) == Err(Truncated) <==>
              || msg == [] || (msg[0] == 1 && |msg| != 43) || (msg[0] == 2 && |msg| < 9)
              || ((msg[0] == 5 || msg[0] == 6) && (|msg| < 6 || GetBE(msg[2..6]) > (|msg| - 6) % 0x1_0000_0000))
  {
    if |msg| >= 6 {
      GetBEBound(msg[2..6]);
      Ranges();
      assert msg[1..][1..5] == msg[2..6];
    }
    hide GetBE;
  }

  /** The wire format's fixed bytes: types, version 1, codecs 0 and 1. */
  lemma WireBytes(m: Metadata, offset: u64, b: byte, id: byte)
    ensures Wire(Meta(m)) == [1, m.version, m.codec] + PutBE(m.fileSize, 8) + m.sha256
    ensures Wire(Data(offset, [b])) == [2] + PutBE(offset, 8) + [b]
    ensures Wire(Eof) == [3] && Wire(Abort([b])) == [4, b] && Wire(Complete) == [7]
    ensures Wire(Offer(id, [b])) == [5, id, 0, 0, 0, 1, b] && Wire(Answer(id, [b])) == [6, id, 0, 0, 0, 1, b]
    ensures PROTOCOL_VERSION == 1 && CODEC_NONE == 0 && CODEC_ZSTD == 1
  {
    BigEndianOne();
    hide PutBE;
    assert |[b]| == 1;
  }

  lemma BigEndianOne()
    ensures PutBE(1, 4) == [0, 0, 0, 1]
  {
    assert PutBE(0, 1) == [0];
    assert PutBE(0, 2) == [0, 0];
    assert PutBE(0, 3) == [0, 0, 0];
  }

  /** The most significant byte comes first. */
  lemma BigEndianOrder(a: byte, b: byte, c: byte, d: byte)
    ensures GetBE([a, b, c, d]) == a * 0x100_0000 + b * 0x1_0000 + c * 0x100 + d
  {
    var s := [a, b, c, d];
    assert s[..3] == [a, b, c] && s[..3][..2] == [a, b] && s[..3][..2][..1] == [a] && s[..3][..2][..1][..0] == [];
    assert GetBE([a]) == a;
    assert GetBE([a, b]) == a * 0x100 + b by { assert [a, b][..1] == [a]; }
    assert GetBE([a, b, c]) == (a * 0x100 + b) * 0x100 + c by { assert [a, b, c][..2] == [a, b]; }
  }

  // ---- Encoders, filling buffers in place ----

  /** Go's copy(buf[at..], s). */
  method Copy(buf: array<byte>, at: nat, s: bytes)
    requires at + |s| <= buf.Length
    modifies buf
    ensures buf[..] == old(buf[..at]) + s + old(buf[at + |s|..])
  {
    forall i | 0 <= i < |s| {
      buf[at + i] := s[i];
    }
  }

  method EncodeMetadata(m: Metadata) returns (buf: array<byte>)
    ensures fresh(buf) && buf[..] == Wire(Meta(m))
  {
    buf := new byte[43];
    buf[0], buf[1], buf[2] := 0x01, m.version, m.codec;
    Copy(buf, 3, PutBE(m.fileSize, 8));
    Copy(buf, 11, m.sha256);
  }

  /**
   * AppendData(dst[:0], offset, payload): reuses dst's array when it is large enough, whatever
   * stale bytes it holds, and overwrites from index 0.
   */
  method AppendData(dst: array<byte>, offset: u64, payload: bytes) returns (out: array<byte>, total: nat)
    modifies dst
    ensures total == 9 + |payload| <= out.Length
    ensures out[..total] == Wire(Data(offset, payload))
    ensures if dst.Length >= total then out == dst else fresh(out) && dst[..] == old(dst[..])
  {
    total := 9 + |payload|;
    if dst.Length < total {
      out := new byte[total];
    } else {
      out := dst;
    }
    out[0] := 0x02;
    Copy(out, 1, PutBE(offset, 8));
    Copy(out, 9, payload);
  }

  method EncodeAbort(reason: bytes) returns (buf: array<byte>)
    ensures fresh(buf) && buf[..] == Wire(Abort(reason))
  {
    buf := new byte[1 + |reason|];
    buf[0] := 0x04;
    Copy(buf, 1, reason);
  }

  method EncodePeerSDP(tag: byte, id: byte, sdp: bytes) returns (buf: array<byte>)
    ensures fresh(buf) && buf[..] == [tag] + PeerBody(id, PutBE(|sdp|, 4), sdp)
  {
    buf := new byte[6 + |sdp|];
    buf[0], buf[1] := tag, id;
    Copy(buf, 2, PutBE(|sdp|, 4));
    Copy(buf, 6, sdp);
  }
}

/** The framed channel over a data channel (internal/session/channel.go). */
module Channels {
  import opened Bytes
  import opened Frames

  /** One look at the outgoing buffer: drained below the threshold, still full, or cancelled. */
  datatype Poll = Drained | Full | Cancelled

  datatype SendError = Refused | ContextDone

  /** Whether waiting for the buffer to drain ends with the context's error. */
  ghost function Waited(polls: seq<Poll>): Option<SendError> {
    if polls == [] || polls[0].Drained? then None
    else if polls[0].Cancelled? then Some(ContextDone)
    else Waited(polls[1..])
  }

  /** The wait fails exactly when the context is cancelled while the buffer has never been seen drained. */
  lemma {:induction false} WaitedMeans(polls: seq<Poll>)
    ensures Waited(polls) == None || Waited(polls) == Some(ContextDone)
    ensures Waited(polls).Some? <==>
              exists k :: 0 <= k < |polls| && polls[k] == Cancelled && forall j :: 0 <= j < k ==> polls[j] == Full
  {
    if polls != [] && polls[0].Full? {
      var rest := polls[1..];
      WaitedMeans(rest);
      if k :| 0 <= k < |rest| && rest[k] == Cancelled && forall j :: 0 <= j < k ==> rest[j] == Full {
        assert polls[k + 1] == Cancelled && forall j :: 0 <= j < k + 1 ==> polls[j] == Full by {
          forall j | 0 <= j < k + 1 ensures polls[j] == Full { if j > 0 { assert polls[j] == rest[j - 1]; } }
        }
      }
      if k :| 0 <= k < |polls| && polls[k] == Cancelled && forall j :: 0 <= j < k ==> polls[j] == Full {
        assert rest[k - 1] == Cancelled && forall j :: 0 <= j < k - 1 ==> rest[j] == Full by {
          forall j | 0 <= j < k - 1 ensures rest[j] == Full { assert rest[j] == polls[j + 1]; }
        }
      }
    } else if polls != [] && polls[0].Cancelled? {
      assert polls[0] == Cancelled;
    }
  }

  class Channel {
    var frameBuf: array<byte>
    var sent: seq<bytes> // messages copied into the transport's queue, in order
    var framesGuard: bool

    constructor ()
      ensures sent == [] && !framesGuard && fresh(frameBuf)
    {
      frameBuf := new byte[0];
      sent := [];
      framesGuard := false;
    }

    /**
     * SendData: one message carrying exactly the given fields, whatever frameBuf held before;
     * the message stays sent when the back-pressure wait is cancelled.
     */
    method SendData(offset: u64, payload: bytes, accepted: bool, polls: seq<Poll>)
      returns (err: Option<SendError>)
      modifies this, frameBuf
      ensures frameBuf == old(frameBuf) || fresh(frameBuf)
      ensures framesGuard == old(framesGuard)
      ensures sent == old(sent) + if accepted then [Wire(Data(offset, payload))] else []
      ensures err == if accepted then Waited(polls) else Some(Refused)
    {
      var buf, total := AppendData(frameBuf, offset, payload);
      frameBuf := buf;
      if !accepted {
        return Some(Refused);
      }
      sent := sent + [frameBuf[..total]];
      var i := 0;
      while i < |polls| && !polls[i].Drained?
        invariant 0 <= i <= |polls|
        invariant Waited(polls) == Waited(polls[i..])
      {
        if polls[i].Cancelled? {
          return Some(ContextDone);
        }
        assert polls[i..][1..] == polls[i + 1..];
        i := i + 1;
      }
      err := None;
    }

    /** The remaining Send methods: encode, then hand the message over. */
    method Send(f: Frame, accepted: bool) returns (err: Option<SendError>)
      requires !f.Data?
      modifies this`sent
      ensures sent == old(sent) + if accepted then [Wire(f)] else []
      ensures err == if accepted then None else Some(Refused)
    {
      var msg: bytes;
      match f {
        case Meta(m) => var buf := EncodeMetadata(m); msg := buf[..];
        case Abort(reason) => var buf := EncodeAbort(reason); msg := buf[..];
        case Offer(id, sdp) => var buf := EncodePeerSDP(0x05, id, sdp); msg := buf[..];
        case Answer(id, sdp) => var buf := EncodePeerSDP(0x06, id, sdp); msg := buf[..];
        case Eof => msg := [0x03]; assert msg == Wire(f);
        case Complete => msg := [0x07]; assert msg == Wire(f);
        case Data(_, _) => assert false;
      }
      assert msg == Wire(f);
      if !accepted {
        return Some(Refused);
      }
      sent := sent + [msg];
      err := None;
    }

    /**
     * OnFrames: only the first call on a channel ever reads; it gives the handler what its reads bring,
     * through one buffer, until a read, a message or the handler ends the loop.
     */
    method OnFrames(opening: Opening, size: nat, pulls: seq<Read>, accepts: seq<Frame> -> bool)
      returns (handled: seq<Frame>, exit: Exit)
      requires forall r :: r in pulls ==> |r.bytes| <= size
      modifies this`framesGuard
      ensures framesGuard
      ensures (handled, exit) == if old(framesGuard) then ([], AlreadyRunning)
                                 else match opening
                                      case ClosesFirst => ([], Ended)
                                      case CancelledFirst => ([], ContextEnded)
                                      case Opens(detaches) =>
                                        if detaches then Served([], pulls, accepts) else ([], DetachFailed)
    {
      if framesGuard {
        return [], AlreadyRunning;
      }
      framesGuard := true;
      if opening.ClosesFirst? {
        return [], Ended;
      }
      if opening.CancelledFirst? {
        return [], ContextEnded;
      }
      if !opening.detaches {
        return [], DetachFailed;
      }
      var buf := new byte[size];
      handled, exit := [], Ended;
      var i := 0;
      while i < |pulls|
        invariant 0 <= i <= |pulls| && buf.Length == size && exit == Ended && framesGuard
        invariant Served([], pulls, accepts) == Served(handled, pulls[i..], accepts)
      {
        hide Dispatch;
        var r := pulls[i];
        assert r in pulls;
        forall k | 0 <= k < |r.bytes| {
          buf[k] := r.bytes[k];
        }
        if |r.bytes| > 0 {
          assert buf[..|r.bytes|] == r.bytes;
          var f := Dispatch(buf[..|r.bytes|]);
          if f.Err? {
            return handled, BadMessage;
          }
          handled := handled + [f.value];
          if !accepts(handled) {
            return handled, HandlerFailed;
          }
        }
        if r.fault.Some? {
          return handled, ExitFor(r.fault.value);
        }
        assert pulls[i..][1..] == pulls[i + 1..];
        i := i + 1;
      }
    }

    /**
     * Any sequence of sends through the one reused buffer: message by message, dispatching what
     * was sent calls the matching handler with exactly the original fields.
     */
    method SendAll(frames: seq<Frame>)
      requires forall f :: f in frames && IsPeerFrame(f) ==> |f.sdp| + 5 < TWO32
      modifies this, frameBuf
      ensures |sent| == |old(sent)| + |frames| && sent[..|old(sent)|] == old(sent)
      ensures forall i :: 0 <= i < |frames| ==> Dispatch(sent[|old(sent)| + i]) == Ok(frames[i])
    {
      hide Wire, Dispatch;
      ghost var before := sent;
      var k := 0;
      while k < |frames|
        invariant 0 <= k <= |frames|
        invariant frameBuf == old(frameBuf) || fresh(frameBuf)
        invariant |sent| == |before| + k && sent[..|before|] == before
        invariant forall i :: 0 <= i < k ==> Dispatch(sent[|before| + i]) == Ok(frames[i])
      {
        RoundTrip(frames[k]);
        var err;
        match frames[k] {
          case Data(offset, payload) => err := SendData(offset, payload, true, []);
          case _ => err := Send(frames[k], true);
        }
        k := k + 1;
      }
    }
  }

  // ---- OnFrames ----

  /** How the error of a read counts: the end of the channel, a cancelled context, or anything else. */
  datatype ReadFault = AtEnd | Interrupted | Broken

  /** One read into the buffer; it may bring bytes together with an error. */
  datatype Read = Read(bytes: bytes, fault: Option<ReadFault>)

  /** What OnFrames waits for before it reads, and whether the channel can be detached. */
  datatype Opening = Opens(detaches: bool) | ClosesFirst | CancelledFirst

  /** How OnFrames returns. */
  datatype Exit =
    | AlreadyRunning
    | Ended                           // nil: the channel has ended, or was closed before it opened
    | ContextEnded
    | DetachFailed
    | ReadFailed
    | BadMessage                      // Dispatch's own error
    | HandlerFailed

  function ExitFor(f: ReadFault): Exit {
    match f
    case AtEnd => Ended
    case Interrupted => ContextEnded
    case Broken => ReadFailed
  }

  /**
   * runDetached's loop on values: what the handler has been given at the end, after given, and how the
   * loop returns. The handler may refuse a frame for anything it has been given; a channel without
   * further reads has ended.
   */
  function Served(given: seq<Frame>, pulls: seq<Read>, accepts: seq<Frame> -> bool): (seq<Frame>, Exit)
    decreases |pulls|
  {
    if pulls == [] then (given, Ended)
    else
      var r := pulls[0];
      if r.bytes != [] && Dispatch(r.bytes).Err? then (given, BadMessage)
      else
        var more := if r.bytes == [] then given else given + [Dispatch(r.bytes).value];
        if r.bytes != [] && !accepts(more) then (more, HandlerFailed)
        else if r.fault.Some? then (more, ExitFor(r.fault.value))
        else Served(more, pulls[1..], accepts)
  }

  /** The frame a read brings, if it brings one. */
  function Brings(r: Read): seq<Frame> {
    if r.bytes == [] || Dispatch(r.bytes).Err? then [] else [Dispatch(r.bytes).value]
  }

  /** The frames of the first n reads. */
  function Brought(pulls: seq<Read>, n: nat): seq<Frame>
    requires n <= |pulls|
  {
    if n == 0 then [] else Brought(pulls, n - 1) + Brings(pulls[n - 1])
  }

  /** A read after which the loop goes on; after is what the handler has been given by then. */
  predicate GoesOn(r: Read, after: seq<Frame>, accepts: seq<Frame> -> bool) {
    r.fault.None? && (r.bytes != [] ==> Dispatch(r.bytes).Ok? && accepts(after))
  }

  /** A read that ends the loop, with what the handler has been given before and after it. */
  ghost predicate Ends(r: Read, before: seq<Frame>, after: seq<Frame>, accepts: seq<Frame> -> bool,
                       handled: seq<Frame>, exit: Exit)
  {
    if r.bytes != [] && Dispatch(r.bytes).Err? then handled == before && exit == BadMessage
    else
      && handled == after
      && if r.bytes != [] && !accepts(after) then exit == HandlerFailed
         else
           && r.fault.Some? && (r.fault == Some(AtEnd) ==> exit == Ended)
           && (r.fault == Some(Interrupted) ==> exit == ContextEnded)
           && (r.fault == Some(Broken) ==> exit == ReadFailed)
  }

  /** How the loop returns after n reads that let it go on. */
  ghost predicate StopsAt(given: seq<Frame>, pulls: seq<Read>, n: nat, accepts: seq<Frame> -> bool,
                          handled: seq<Frame>, exit: Exit)
  {
    && n <= |pulls| && (forall k :: 0 <= k < n ==> GoesOn(pulls[k], given + Brought(pulls, k + 1), accepts))
    && if n == |pulls| then handled == given + Brought(pulls, n) && exit == Ended
       else Ends(pulls[n], given + Brought(pulls, n), given + Brought(pulls, n + 1), accepts, handled, exit)
  }

  /** The loop, for any reads: it goes on while it can, and the first read that ends it says how. */
  lemma {:induction false} ServedMeans(given: seq<Frame>, pulls: seq<Read>, accepts: seq<Frame> -> bool) returns (n: nat)
    ensures StopsAt(given, pulls, n, accepts, Served(given, pulls, accepts).0, Served(given, pulls, accepts).1)
    decreases |pulls|
  {
    hide Dispatch, Brought, Brings;
    n := 0;
    BroughtFirst(pulls);
    assert given + [] == given;
    if pulls != [] {
      ServedFirst(given, pulls, accepts);
      if GoesOn(pulls[0], given + Brings(pulls[0]), accepts) {
        n := ServedMeans(given + Brings(pulls[0]), pulls[1..], accepts);
        LaterStop(given, pulls, n, accepts, Served(given, pulls, accepts).0, Served(given, pulls, accepts).1);
        n := n + 1;
      }
    }
  }

  lemma BroughtFirst(pulls: seq<Read>)
    ensures Brought(pulls, 0) == []
    ensures pulls != [] ==> Brought(pulls, 1) == Brings(pulls[0])
  {
    if pulls != [] { assert Brought(pulls, 0) == []; }
  }

  /** The first read either ends the loop or leaves the rest to it. */
  lemma ServedFirst(given: seq<Frame>, pulls: seq<Read>, accepts: seq<Frame> -> bool)
    requires pulls != []
    ensures var more := given + Brings(pulls[0]);
            if GoesOn(pulls[0], more, accepts) then Served(given, pulls, accepts) == Served(more, pulls[1..], accepts)
            else Ends(pulls[0], given, more, accepts, Served(given, pulls, accepts).0, Served(given, pulls, accepts).1)
  {
    hide Dispatch;
    assert given + [] == given;
  }

  lemma LaterStop(given: seq<Frame>, pulls: seq<Read>, n: nat, accepts: seq<Frame> -> bool, handled: seq<Frame>, exit: Exit)
    requires pulls != [] && GoesOn(pulls[0], given + Brings(pulls[0]), accepts)
    requires StopsAt(given + Brings(pulls[0]), pulls[1..], n, accepts, handled, exit)
    ensures StopsAt(given, pulls, n + 1, accepts, handled, exit)
  {
    hide Dispatch, Brings, Brought, GoesOn, Ends;
    var more, rest := given + Brings(pulls[0]), pulls[1..];
    BroughtFirst(pulls);
    BroughtFrom(given, pulls, n);
    if n < |rest| { BroughtFrom(given, pulls, n + 1); }
    forall k | 0 <= k < n + 1 ensures GoesOn(pulls[k], given + Brought(pulls, k + 1), accepts) {
      if k > 0 {
        assert GoesOn(rest[k - 1], more + Brought(rest, k - 1 + 1), accepts);
        BroughtFrom(given, pulls, k);
      }
    }
  }

  lemma BroughtFrom(given: seq<Frame>, pulls: seq<Read>, k: nat)
    requires k < |pulls|
    ensures given + Brought(pulls, k + 1) == given + Brings(pulls[0]) + Brought(pulls[1..], k)
  {
    hide Brings, Brought;
    BroughtTail(pulls, k);
    assert given + (Brings(pulls[0]) + Brought(pulls[1..], k)) == given + Brings(pulls[0]) + Brought(pulls[1..], k);
  }

  lemma {:induction false} BroughtTail(pulls: seq<Read>, k: nat)
    requires k < |pulls|
    ensures Brought(pulls, k + 1) == Brings(pulls[0]) + Brought(pulls[1..], k)
  {
    hide Brings;
    if k > 0 {
      BroughtTail(pulls, k - 1);
    } else {
      assert Brought(pulls, 0) == [];
    }
  }

  /** The reads a message channel gives: message by message, and no part of one that is too long for the buffer. */
  function ReadsOf(messages: seq<bytes>, size: nat, end: ReadFault): seq<Read> {
    if messages == [] then [Read([], Some(end))]
    else if |messages[0]| > size then [Read([], Some(Broken))]
    else [Read(messages[0], None)] + ReadsOf(messages[1..], size, end)
  }

  function Wires(frames: seq<Frame>): seq<bytes> {
    if frames == [] then [] else [Wire(frames[0])] + Wires(frames[1..])
  }

  /** Frame k fits the buffer and is accepted after those before it. */
  ghost predicate IsGood(given: seq<Frame>, frames: seq<Frame>, size: nat, accepts: seq<Frame> -> bool, k: nat)
    requires k < |frames|
  {
    |Wire(frames[k])| <= size && accepts(given + frames[..k + 1])
  }

  ghost predicate AllGood(given: seq<Frame>, frames: seq<Frame>, size: nat, accepts: seq<Frame> -> bool) {
    forall k :: 0 <= k < |frames| ==> IsGood(given, frames, size, accepts, k)
  }

  /**
   * Exactly the frames that fit the buffer reach the handler, unchanged and in order, up to the first one
   * that does not fit or that the handler refuses; the way the loop returns says which it was.
   */
  ghost predicate FaithfulService(given: seq<Frame>, frames: seq<Frame>, size: nat, accepts: seq<Frame> -> bool,
                                  end: ReadFault, n: nat, exit: Exit)
  {
    && n <= |frames|
    && AllGood(given, frames[..if exit.HandlerFailed? && n > 0 then n - 1 else n], size, accepts)
    && (exit.HandlerFailed? ==> n > 0 && |Wire(frames[n - 1])| <= size && !accepts(given + frames[..n]))
    && (!exit.HandlerFailed? && n < |frames| ==> exit.ReadFailed? && |Wire(frames[n])| > size)
    && (!exit.HandlerFailed? && n == |frames| ==>
          && (end.AtEnd? <==> exit == Ended) && (end.Interrupted? <==> exit == ContextEnded)
          && (end.Broken? <==> exit == ReadFailed))
  }

  lemma {:induction false} ServedFaithfully(given: seq<Frame>, frames: seq<Frame>, size: nat, accepts: seq<Frame> -> bool,
                                            end: ReadFault) returns (n: nat)
    requires forall f :: f in frames && IsPeerFrame(f) ==> |f.sdp| + 5 < TWO32
    ensures n <= |frames|
    ensures var (handled, exit) := Served(given, ReadsOf(Wires(frames), size, end), accepts);
            handled == given + frames[..n] && FaithfulService(given, frames, size, accepts, end, n, exit)
    decreases |frames|
  {
    hide Dispatch, Wire, FaithfulService;
    var (handled, exit) := Served(given, ReadsOf(Wires(frames), size, end), accepts);
    n := 0;
    if frames == [] {
      NothingToServe(given, size, accepts, end);
    } else if |Wire(frames[0])| > size {
      TooLong(given, frames, size, accepts, end);
    } else {
      var f, rest := frames[0], frames[1..];
      RoundTrip(f);
      WireIsNotEmpty(f);
      FirstRead(frames, size, end);
      if accepts(given + [f]) {
        var m := ServedFaithfully(given + [f], rest, size, accepts, end);
        n := m + 1;
        assert frames[..n] == [f] + rest[..m];
        assert given + [f] + rest[..m] == given + frames[..n];
        OneMoreServed(given, frames, size, accepts, end, m, exit);
      } else {
        n := 1;
        assert frames[..1] == [f];
        FirstRefused(given, frames, size, accepts, end);
      }
    }
  }

  lemma WireIsNotEmpty(f: Frame)
    ensures Wire(f) != []
  {
  }

  lemma FirstRead(frames: seq<Frame>, size: nat, end: ReadFault)
    requires frames != [] && |Wire(frames[0])| <= size
    ensures var pulls := ReadsOf(Wires(frames), size, end);
            pulls != [] && pulls[0] == Read(Wire(frames[0]), None) && pulls[1..] == ReadsOf(Wires(frames[1..]), size, end)
  {
    hide Wire;
    assert Wires(frames)[1..] == Wires(frames[1..]);
  }

  lemma NothingToServe(given: seq<Frame>, size: nat, accepts: seq<Frame> -> bool, end: ReadFault)
    ensures Served(given, ReadsOf(Wires([]), size, end), accepts) == (given, ExitFor(end))
    ensures FaithfulService(given, [], size, accepts, end, 0, ExitFor(end))
  {
  }

  lemma TooLong(given: seq<Frame>, frames: seq<Frame>, size: nat, accepts: seq<Frame> -> bool, end: ReadFault)
    requires frames != [] && |Wire(frames[0])| > size
    ensures Served(given, ReadsOf(Wires(frames), size, end), accepts) == (given, ReadFailed)
    ensures FaithfulService(given, frames, size, accepts, end, 0, ReadFailed)
  {
    hide Wire;
  }

  lemma FirstRefused(given: seq<Frame>, frames: seq<Frame>, size: nat, accepts: seq<Frame> -> bool, end: ReadFault)
    requires frames != [] && |Wire(frames[0])| <= size && !accepts(given + [frames[0]])
    ensures FaithfulService(given, frames, size, accepts, end, 1, HandlerFailed)
  {
    hide Wire;
    assert frames[..1] == [frames[0]];
  }

  lemma OneMoreServed(given: seq<Frame>, frames: seq<Frame>, size: nat, accepts: seq<Frame> -> bool, end: ReadFault,
                      m: nat, exit: Exit)
    requires frames != [] && |Wire(frames[0])| <= size && accepts(given + [frames[0]])
    requires FaithfulService(given + [frames[0]], frames[1..], size, accepts, end, m, exit)
    ensures FaithfulService(given, frames, size, accepts, end, m + 1, exit)
  {
    hide Wire, AllGood;
    var f, rest := frames[0], frames[1..];
    assert given + [f] + rest[..m] == given + frames[..m + 1];
    if exit.HandlerFailed? {
      MoreGood(given, frames, size, accepts, m - 1);
    } else {
      MoreGood(given, frames, size, accepts, m);
    }
  }

  lemma MoreGood(given: seq<Frame>, frames: seq<Frame>, size: nat, accepts: seq<Frame> -> bool, m: nat)
    requires m < |frames| && |Wire(frames[0])| <= size && accepts(given + [frames[0]])
    requires AllGood(given + [frames[0]], frames[1..][..m], size, accepts)
    ensures AllGood(given, frames[..m + 1], size, accepts)
  {
    hide Wire;
    var f, some := frames[0], frames[1..][..m];
    var all := frames[..m + 1];
    forall k | 0 <= k < |all| ensures IsGood(given, all, size, accepts, k) {
      if k == 0 {
        assert all[..1] == [f];
      } else {
        assert IsGood(given + [f], some, size, accepts, k - 1);
        assert all[..k + 1] == [f] + some[..k];
        Regroup(given, f, some[..k]);
      }
    }
  }

  lemma Regroup(given: seq<Frame>, f: Frame, rest: seq<Frame>)
    ensures given + [f] + rest == given + ([f] + rest)
  {
  }
}
