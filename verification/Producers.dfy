/** How a file is cut into pieces, independently of who reads it. */
module Pieces {
  import opened Bytes

  const CHUNK_SIZE: nat := 262_144

  datatype Piece = Piece(offset: nat, payload: bytes)

  predicate OnGrid(offset: nat) { offset % 262_144 == 0 }

  /** Length of the piece that starts at offset in a file of the given size. */
  function PieceLen(size: nat, offset: nat): (n: nat) {
    if offset >= size then 0
    else if size - offset < 262_144 then size - offset
    else 262_144
  }

  /** The pieces of data from offset on. */
  function PiecesFrom(data: bytes, offset: nat): seq<Piece>
    decreases |data| - offset
  {
    if offset >= |data| then []
    else [Piece(offset, data[offset..offset + PieceLen(|data|, offset)])]
         + PiecesFrom(data, offset + PieceLen(|data|, offset))
  }

  /** Only the pieces of full size. */
  function FullPiecesFrom(data: bytes, offset: nat): seq<Piece>
    decreases |data| - offset
  {
    if offset + 262_144 > |data| then []
    else [Piece(offset, data[offset..offset + 262_144])] + FullPiecesFrom(data, offset + 262_144)
  }

  function Concat(pieces: seq<Piece>): bytes {
    if pieces == [] then [] else pieces[0].payload + Concat(pieces[1..])
  }

  lemma ConcatStep(p: Piece, rest: seq<Piece>)
    ensures Concat([p] + rest) == p.payload + Concat(rest)
  {
    assert ([p] + rest)[1..] == rest;
  }

  lemma {:induction false} PiecesConcat(data: bytes, offset: nat)
    requires offset <= |data|
    ensures Concat(PiecesFrom(data, offset)) == data[offset..]
    decreases |data| - offset
  {
    hide Concat;
    if offset < |data| {
      var n := PieceLen(|data|, offset);
      PiecesConcat(data, offset + n);
      ConcatStep(Piece(offset, data[offset..offset + n]), PiecesFrom(data, offset + n));
      assert data[offset..] == data[offset..offset + n] + data[offset + n..];
    } else {
      ConcatNone();
    }
  }

  lemma ConcatNone()
    ensures Concat([]) == []
  {
  }

  /** The pieces are contiguous from offset on and of full size, up to a last one that is not empty. */
  ghost predicate Tiled(ps: seq<Piece>, offset: nat) {
    && (ps != [] ==> ps[0].offset == offset && 0 < |ps[|ps| - 1].payload| <= 262_144)
    && forall i :: 0 <= i < |ps| - 1 ==> |ps[i].payload| == 262_144 && ps[i + 1].offset == ps[i].offset + 262_144
  }

  lemma TiledStep(p: Piece, rest: seq<Piece>)
    requires 0 < |p.payload| <= 262_144 && Tiled(rest, p.offset + |p.payload|)
    requires rest != [] ==> |p.payload| == 262_144
    ensures Tiled([p] + rest, p.offset)
  {
    var ps := [p] + rest;
    forall i | 0 <= i < |ps| - 1 ensures |ps[i].payload| == 262_144 && ps[i + 1].offset == ps[i].offset + 262_144 {
      assert ps[i + 1] == rest[i];
      if i > 0 { assert ps[i] == rest[i - 1]; }
    }
    if rest != [] { assert ps[|ps| - 1] == rest[|rest| - 1]; }
  }

  /**
   * The pieces tile the file: they start at offset, each begins where the one before ends, all but
   * the last have the full size and the last is not empty, and together they are the file's bytes.
   */
  lemma {:induction false} PiecesTile(data: bytes, offset: nat)
    requires offset <= |data|
    ensures var ps := PiecesFrom(data, offset);
            Tiled(ps, offset) && Concat(ps) == data[offset..] && (ps == [] <==> offset == |data|)
    decreases |data| - offset
  {
    hide Tiled, Concat;
    PiecesConcat(data, offset);
    if offset < |data| {
      var n := PieceLen(|data|, offset);
      PiecesTile(data, offset + n);
      TiledStep(Piece(offset, data[offset..offset + n]), PiecesFrom(data, offset + n));
    } else {
      NothingTiled(offset);
    }
  }

  lemma NothingTiled(offset: nat)
    ensures Tiled([], offset)
  {
  }

  lemma {:induction false} FullPiecesAreAll(data: bytes, offset: nat)
    requires offset <= |data| && OnGrid(offset)
    ensures FullPiecesFrom(data, offset) == PiecesFrom(data, offset) <==> OnGrid(|data|)
    decreases |data| - offset
  {
    if offset + 262_144 <= |data| {
      FullPiecesAreAll(data, offset + 262_144);
      var p := Piece(offset, data[offset..offset + 262_144]);
      var f, a := FullPiecesFrom(data, offset + 262_144), PiecesFrom(data, offset + 262_144);
      assert ([p] + f)[1..] == f && ([p] + a)[1..] == a;
    }
  }
}

/** The compression applied to each piece on its own. */
module Coders {
  import opened Bytes
  import opened Frames

  datatype Coder = Raw | Zstd(encode: bytes -> bytes, decode: bytes -> Option<bytes>) {
    function Encode(p: bytes): bytes { if Raw? then p else encode(p) }

    /** None when the frame does not decompress. */
    function Decode(w: bytes): Option<bytes> { if Raw? then Some(w) else decode(w) }

    /** Decompression undoes compression. */
    ghost predicate Sound() { Zstd? ==> forall p :: decode(encode(p)) == Some(p) }
  }

  /** The METADATA an honest sender announces for a file. */
  function MetaFor(file: bytes, coder: Coder, hash: bytes -> Digest): Metadata
    requires |file| < TWO64
  {
    Metadata(PROTOCOL_VERSION, if coder.Raw? then CODEC_NONE else CODEC_ZSTD, |file|, hash(file))
  }
}

/** Reading the source stream: io.Reader with short reads, io.ReadFull, and both chunk loops. */
module Producers {
  import opened Bytes
  import opened Frames
  import opened Channels
  import opened Pieces
  import opened Coders

  datatype Ending = AtEof | AtFault
  datatype ReadError = EOF | UnexpectedEOF | Fault

  /** One Read call: at most limit bytes; eager reports the end together with the last bytes. */
  datatype Read = Read(limit: nat, eager: bool)

  function Min(a: nat, b: nat): nat { if a < b then a else b }

  /** A stream that yields data and then ends, in reads as short as the pattern says. */
  class Reader {
    const data: bytes
    const ending: Ending
    var pos: nat
    var pattern: seq<Read> // once used up, reads fill their buffer

    ghost predicate Valid()
      reads this
    {
      pos <= |data|
    }

    constructor (data: bytes, ending: Ending, pattern: seq<Read>)
      ensures Valid() && this.data == data && this.ending == ending && pos == 0
    {
      this.data, this.ending, this.pos, this.pattern := data, ending, 0, pattern;
    }

    method Read(buf: array<byte>, at: nat) returns (n: nat, ended: bool)
      requires Valid() && at < buf.Length
      modifies this, buf
      ensures Valid() && pos == old(pos) + n && at + n <= buf.Length
      ensures buf[..at + n] == old(buf[..at]) + data[old(pos)..pos]
      ensures ended ==> pos == |data|
      ensures |pattern| <= |old(pattern)|
      ensures !ended ==> n > 0 || |pattern| < |old(pattern)|
    {
      var room := Min(buf.Length - at, |data| - pos);
      n := if pattern == [] then room else Min(room, pattern[0].limit);
      forall i | 0 <= i < n {
        buf[at + i] := data[pos + i];
      }
      ended := pos + n == |data| && (n == 0 || (pattern != [] && pattern[0].eager));
      pos := pos + n;
      if pattern != [] {
        pattern := pattern[1..];
      }
    }
  }

  /** io.ReadFull: the next bytes of the stream, however short the single reads are. */
  method ReadFull(r: Reader, buf: array<byte>) returns (n: nat, err: Option<ReadError>)
    requires r.Valid() && buf.Length > 0
    modifies r, buf
    ensures r.Valid() && r.pos == old(r.pos) + n
    ensures n == Min(buf.Length, |r.data| - old(r.pos))
    ensures buf[..n] == r.data[old(r.pos)..r.pos]
    ensures err == if n == buf.Length then None
                   else if r.ending.AtFault? then Some(Fault)
                   else if n == 0 then Some(EOF) else Some(UnexpectedEOF)
  {
    n := 0;
    var ended := false;
    while n < buf.Length && !ended
      invariant r.Valid() && n <= buf.Length && r.pos == old(r.pos) + n
      invariant buf[..n] == r.data[old(r.pos)..r.pos]
      invariant ended ==> r.pos == |r.data|
      decreases !ended, |r.pattern| + |r.data| - r.pos
    {
      var got;
      ghost var at := r.pos;
      got, ended := r.Read(buf, n);
      assert r.data[old(r.pos)..r.pos] == r.data[old(r.pos)..at] + r.data[at..r.pos];
      n := n + got;
    }
    if n == buf.Length {
      err := None;
    } else if r.ending.AtFault? {
      err := Some(Fault);
    } else {
      err := Some(if n == 0 then EOF else UnexpectedEOF);
    }
  }

  /**
   * multiProduce: what goes onto the chunk channel before it is closed. A read failure drops the
   * bytes of the unfinished piece.
   */
  method MultiProduce(r: Reader) returns (out: seq<Piece>, err: bool)
    requires r.Valid() && r.pos == 0
    modifies r
    ensures out == if r.ending.AtEof? then PiecesFrom(r.data, 0) else FullPiecesFrom(r.data, 0)
    ensures err <==> r.ending.AtFault?
  {
    out := [];
    var offset := 0;
    while true
      invariant r.Valid() && r.pos == offset <= |r.data|
      invariant PiecesFrom(r.data, 0) == out + PiecesFrom(r.data, offset)
      invariant FullPiecesFrom(r.data, 0) == out + FullPiecesFrom(r.data, offset)
      decreases |r.data| - offset
    {
      var buf := new byte[CHUNK_SIZE];
      var numBytes, e := ReadFull(r, buf);
      ghost var before := out;
      if e.None? {
        out := out + [Piece(offset, buf[..numBytes])];
        Grow(r.data, offset, before, out);
        offset := offset + numBytes;
      } else {
        Last(r.data, offset);
        if e.value.Fault? {
          return out, true;
        }
        if numBytes > 0 {
          out := out + [Piece(offset, buf[..numBytes])];
        }
        return out, false;
      }
    }
  }

  lemma Grow(data: bytes, offset: nat, before: seq<Piece>, after: seq<Piece>)
    requires offset + 262_144 <= |data|
    requires after == before + [Piece(offset, data[offset..offset + 262_144])]
    ensures before + PiecesFrom(data, offset) == after + PiecesFrom(data, offset + 262_144)
    ensures before + FullPiecesFrom(data, offset) == after + FullPiecesFrom(data, offset + 262_144)
  {
    hide PiecesFrom, FullPiecesFrom;
    NextFull(data, offset);
    var p := [Piece(offset, data[offset..offset + 262_144])];
    assert before + (p + PiecesFrom(data, offset + 262_144)) == before + p + PiecesFrom(data, offset + 262_144);
    assert before + (p + FullPiecesFrom(data, offset + 262_144)) == before + p + FullPiecesFrom(data, offset + 262_144);
  }

  lemma NextFull(data: bytes, offset: nat)
    requires offset + 262_144 <= |data|
    ensures var p := [Piece(offset, data[offset..offset + 262_144])];
            && PiecesFrom(data, offset) == p + PiecesFrom(data, offset + 262_144)
            && FullPiecesFrom(data, offset) == p + FullPiecesFrom(data, offset + 262_144)
  {
  }

  lemma Last(data: bytes, offset: nat)
    requires offset <= |data| < offset + 262_144
    ensures FullPiecesFrom(data, offset) == []
    ensures PiecesFrom(data, offset) == if offset == |data| then [] else [Piece(offset, data[offset..])]
  {
    if offset < |data| {
      assert data[offset..offset + PieceLen(|data|, offset)] == data[offset..];
      assert PiecesFrom(data, |data|) == [];
    }
  }

  /** The messages sendFile sends for the bytes from offset on: pieces in order, then EOF. */
  ghost function Messages(data: bytes, ending: Ending, coder: Coder, offset: nat): seq<bytes>
    requires |data| < TWO64
    decreases |data| - offset
  {
    if offset >= |data| then (if ending.AtEof? then [Wire(Eof)] else [])
    else
      var n := PieceLen(|data|, offset);
      [Wire(Data(offset, coder.Encode(data[offset..offset + n])))] + Messages(data, ending, coder, offset + n)
  }

  /** The message is the piece, in a DATA frame with its own offset. */
  predicate Carries(m: bytes, p: Piece, coder: Coder) {
    p.offset < TWO64 && Dispatch(m) == Ok(Data(p.offset, coder.Encode(p.payload)))
  }

  /** The first messages are the pieces, in order. */
  ghost predicate CarryAll(ms: seq<bytes>, ps: seq<Piece>, coder: Coder) {
    |ps| <= |ms| && forall i :: 0 <= i < |ps| ==> Carries(ms[i], ps[i], coder)
  }

  lemma CarryStep(m: bytes, ms: seq<bytes>, p: Piece, ps: seq<Piece>, coder: Coder)
    requires Carries(m, p, coder) && CarryAll(ms, ps, coder)
    ensures CarryAll([m] + ms, [p] + ps, coder)
  {
    hide Carries;
    forall i | 0 <= i < |ps| + 1 ensures Carries(([m] + ms)[i], ([p] + ps)[i], coder) {
      if i > 0 { assert ([m] + ms)[i] == ms[i - 1] && ([p] + ps)[i] == ps[i - 1]; }
    }
  }

  /** The messages are the pieces, each in a DATA frame with its own offset, and EOF after a good end. */
  lemma {:induction false} MessagesArePieces(data: bytes, ending: Ending, coder: Coder, offset: nat)
    requires |data| < TWO64 && offset <= |data|
    ensures var ps, ms := PiecesFrom(data, offset), Messages(data, ending, coder, offset);
            && |ms| == |ps| + (if ending.AtEof? then 1 else 0) && CarryAll(ms, ps, coder)
            && (ending.AtEof? ==> Dispatch(ms[|ps|]) == Ok(Eof))
    decreases |data| - offset
  {
    hide Dispatch, Wire, CarryAll;
    if offset < |data| {
      var n := PieceLen(|data|, offset);
      var p, m := Piece(offset, data[offset..offset + n]), Wire(Data(offset, coder.Encode(data[offset..offset + n])));
      var ps, ms := PiecesFrom(data, offset + n), Messages(data, ending, coder, offset + n);
      MessagesArePieces(data, ending, coder, offset + n);
      assert PiecesFrom(data, offset) == [p] + ps && Messages(data, ending, coder, offset) == [m] + ms;
      assert Carries(m, p, coder) by { RoundTrip(Data(offset, coder.Encode(data[offset..offset + n]))); }
      CarryStep(m, ms, p, ps, coder);
    } else {
      RoundTrip(Eof);
      NoneCarried(data, ending, coder, offset);
    }
  }

  lemma NoneCarried(data: bytes, ending: Ending, coder: Coder, offset: nat)
    requires |data| < TWO64 && offset == |data|
    ensures PiecesFrom(data, offset) == [] && CarryAll(Messages(data, ending, coder, offset), [], coder)
  {
    hide Wire, Dispatch;
  }

  /** The fate of one message: whether the transport takes it, and the polls of the back-pressure wait. */
  datatype Fate = Fate(accepted: bool, polls: seq<Poll>)

  /** The error of SendData, whose message is sent even when the wait is cancelled. */
  ghost function DataError(f: Fate): Option<SendError> { if f.accepted then Waited(f.polls) else Some(Refused) }

  /** One turn of sendFile's loop: read the next piece, encode it and send it. */
  method SendPiece(r: Reader, coder: Coder, ch: Channel, readBuf: array<byte>, fate: Fate)
    returns (n: nat, readErr: Option<ReadError>, sendErr: Option<SendError>)
    requires r.Valid() && |r.data| < TWO64 && readBuf.Length == CHUNK_SIZE && readBuf != ch.frameBuf
    modifies r, ch, ch.frameBuf, readBuf
    ensures r.Valid() && r.pos == old(r.pos) + n && n == Min(CHUNK_SIZE, |r.data| - old(r.pos))
    ensures ch.frameBuf == old(ch.frameBuf) || fresh(ch.frameBuf)
    ensures readErr == if n == CHUNK_SIZE then None
                       else if r.ending.AtFault? then Some(Fault)
                       else if n == 0 then Some(EOF) else Some(UnexpectedEOF)
    ensures sendErr == if n == 0 then None else DataError(fate)
    ensures ch.sent == old(ch.sent) + if n > 0 && fate.accepted
                                      then [Wire(Data(old(r.pos), coder.Encode(r.data[old(r.pos)..r.pos])))] else []
  {
    hide Wire;
    var offset := r.pos;
    n, readErr := ReadFull(r, readBuf);
    sendErr := None;
    if n > 0 {
      sendErr := ch.SendData(offset, coder.Encode(readBuf[..n]), fate.accepted, fate.polls);
    }
  }

  datatype SendFileError = FileUnread | SendFailed(error: SendError)

  /**
   * sendFile, whatever happens to each message: the pieces in order, then EOF, up to the first message
   * that is refused or whose wait is cancelled; the partial piece before a read failure is sent too,
   * but no EOF follows it. The statistics count the pieces whose sending went well.
   */
  method SendFile(r: Reader, coder: Coder, ch: Channel, fates: nat -> Fate)
    returns (err: Option<SendFileError>, sends: nat, counted: nat)
    requires r.Valid() && r.pos == 0 && |r.data| < TWO64
    modifies r, ch, ch.frameBuf
    ensures SendOutcome(ch.sent, old(ch.sent), Messages(r.data, r.ending, coder, 0), r.ending, fates, err, sends)
    ensures counted == Min(sends * CHUNK_SIZE, |r.data|)
  {
    hide Messages, Wire, SendOutcome, Body, Tag, PutBE, PieceLen, Goes, Waited;
    var readBuf := new byte[CHUNK_SIZE];
    sends, counted := 0, 0; // counted is the offset, too
    ghost var before := ch.sent;
    ghost var rest := Messages(r.data, r.ending, coder, 0);
    ghost var all := rest;
    NoneSent(all, r.ending, fates);
    while true
      invariant r.Valid() && r.pos == counted <= |r.data| && counted == Min(sends * CHUNK_SIZE, |r.data|)
      invariant counted < |r.data| ==> counted == sends * CHUNK_SIZE
      invariant ch.frameBuf == old(ch.frameBuf) || fresh(ch.frameBuf)
      invariant fresh(readBuf) && readBuf != ch.frameBuf && readBuf.Length == CHUNK_SIZE
      invariant rest == Messages(r.data, r.ending, coder, counted) && ch.sent + rest == before + all
      invariant |ch.sent| == |before| + sends && AllGo(all, r.ending, fates, sends)
      decreases |r.data| - counted
    {
      ghost var sent := ch.sent;
      var numBytes, readErr, sendErr := SendPiece(r, coder, ch, readBuf, fates(sends));
      NextMessage(r.data, r.ending, coder, counted, numBytes);
      if numBytes > 0 {
        DataLeft(sent, before, rest, all, r.ending, sends);
      }
      if sendErr.Some? {
        err := Some(SendFailed(sendErr.value));
        StoppedAt(ch.sent, sent, before, rest, all, r.ending, fates, err, sends);
        break;
      }
      if numBytes > 0 {
        ghost var left := Messages(r.data, r.ending, coder, counted + numBytes);
        Shift(sent, rest, rest[0], left);
        OneMore(all, r.ending, fates, sends);
        rest, sends := left, sends + 1;
        counted := counted + numBytes;
      }
      if readErr.Some? {
        LastMessage(r.data, r.ending, coder, counted);
        if readErr.value.Fault? {
          err := Some(FileUnread);
          Concluded(ch.sent, before, all, r.ending, fates, err, sends);
          break;
        }
        sent := ch.sent;
        sendErr := ch.Send(Eof, fates(sends).accepted);
        EofLeft(sent, before, rest, all, r.ending, sends);
        if sendErr.Some? {
          err := Some(SendFailed(sendErr.value));
          StoppedAt(ch.sent, sent, before, rest, all, r.ending, fates, err, sends);
          break;
        }
        Shift(sent, rest, Wire(Eof), []);
        OneMore(all, r.ending, fates, sends);
        rest, sends := [], sends + 1;
        err := None;
        Concluded(ch.sent, before, all, r.ending, fates, err, sends);
        break;
      }
    }
  }

  /** Message k of all is the last, EOF. */
  predicate IsEofAt(all: seq<bytes>, ending: Ending, k: nat) { ending.AtEof? && k + 1 == |all| }

  /** What becomes of message k: nobody waits after EOF. */
  ghost function ErrorAt(all: seq<bytes>, ending: Ending, fates: nat -> Fate, k: nat): Option<SendError> {
    if IsEofAt(all, ending, k) then (if fates(k).accepted then None else Some(Refused)) else DataError(fates(k))
  }

  ghost predicate Goes(all: seq<bytes>, ending: Ending, fates: nat -> Fate, k: nat) {
    ErrorAt(all, ending, fates, k).None?
  }

  ghost predicate AllGo(all: seq<bytes>, ending: Ending, fates: nat -> Fate, n: nat) {
    n <= |all| && forall k :: 0 <= k < n ==> Goes(all, ending, fates, k)
  }

  /**
   * The first sends messages have gone well; the next one, if there is any, has not, and is sent
   * nevertheless if the transport took it.
   */
  ghost predicate SendOutcome(sent: seq<bytes>, before: seq<bytes>, all: seq<bytes>, ending: Ending, fates: nat -> Fate,
                              err: Option<SendFileError>, sends: nat)
  {
    && AllGo(all, ending, fates, sends)
    && (sends < |all| ==>
          && err.Some? && err.value.SendFailed? && ErrorAt(all, ending, fates, sends) == Some(err.value.error)
          && sent == before + all[..if fates(sends).accepted then sends + 1 else sends])
    && (sends == |all| ==> sent == before + all && err == if ending.AtEof? then None else Some(FileUnread))
  }

  lemma NoneSent(all: seq<bytes>, ending: Ending, fates: nat -> Fate)
    ensures AllGo(all, ending, fates, 0)
  {
  }

  lemma OneMore(all: seq<bytes>, ending: Ending, fates: nat -> Fate, n: nat)
    requires AllGo(all, ending, fates, n) && n < |all| && ErrorAt(all, ending, fates, n).None?
    ensures AllGo(all, ending, fates, n + 1)
  {
    hide ErrorAt;
  }

  lemma DataLeft(sent: seq<bytes>, before: seq<bytes>, rest: seq<bytes>, all: seq<bytes>, ending: Ending, sends: nat)
    requires sent + rest == before + all && |sent| == |before| + sends && |rest| >= if ending.AtEof? then 2 else 1
    ensures sends < |all| && !IsEofAt(all, ending, sends)
  {
    assert |sent + rest| == |before + all|;
  }

  lemma EofLeft(sent: seq<bytes>, before: seq<bytes>, rest: seq<bytes>, all: seq<bytes>, ending: Ending, sends: nat)
    requires sent + rest == before + all && |sent| == |before| + sends && |rest| == 1 && ending.AtEof?
    ensures sends < |all| && IsEofAt(all, ending, sends)
  {
    assert |sent + rest| == |before + all|;
  }

  lemma StoppedAt(sent': seq<bytes>, sent: seq<bytes>, before: seq<bytes>, rest: seq<bytes>, all: seq<bytes>, ending: Ending,
                  fates: nat -> Fate, err: Option<SendFileError>, sends: nat)
    requires sent + rest == before + all && |sent| == |before| + sends && AllGo(all, ending, fates, sends)
             && sends < |all|
    requires sent' == sent + if fates(sends).accepted then [rest[0]] else []
    requires err.Some? && err.value.SendFailed? && ErrorAt(all, ending, fates, sends) == Some(err.value.error)
    ensures SendOutcome(sent', before, all, ending, fates, err, sends)
  {
    hide AllGo, ErrorAt;
    assert rest == all[sends..] && sent == before + all[..sends] by {
      assert sent == (sent + rest)[..|sent|] == (before + all)[..|sent|];
      assert rest == (sent + rest)[|sent|..] == (before + all)[|sent|..];
    }
    assert all[..sends + 1] == all[..sends] + [all[sends]];
  }

  lemma Concluded(sent: seq<bytes>, before: seq<bytes>, all: seq<bytes>, ending: Ending, fates: nat -> Fate,
                  err: Option<SendFileError>, sends: nat)
    requires sent + [] == before + all && |sent| == |before| + sends && AllGo(all, ending, fates, sends)
    requires err == if ending.AtEof? then None else Some(FileUnread)
    ensures SendOutcome(sent, before, all, ending, fates, err, sends)
  {
    hide AllGo;
    assert sent == before + all;
  }

  lemma Shift(sent: seq<bytes>, rest: seq<bytes>, m: bytes, left: seq<bytes>)
    requires rest == [m] + left
    ensures sent + [m] + left == sent + rest
  {
  }

  lemma NextMessage(data: bytes, ending: Ending, coder: Coder, offset: nat, n: nat)
    requires |data| < TWO64 && offset <= |data| && n == Min(262_144, |data| - offset)
    ensures n > 0 ==> Messages(data, ending, coder, offset)
                      == [Wire(Data(offset, coder.Encode(data[offset..offset + n])))]
                         + Messages(data, ending, coder, offset + n)
    ensures |Messages(data, ending, coder, offset + n)| >= if ending.AtEof? then 1 else 0
  {
    EofAtTheEnd(data, ending, coder, offset + n);
  }

  lemma {:induction false} EofAtTheEnd(data: bytes, ending: Ending, coder: Coder, offset: nat)
    requires |data| < TWO64
    ensures |Messages(data, ending, coder, offset)| >= if ending.AtEof? then 1 else 0
    decreases |data| - offset
  {
    hide Wire;
    if offset < |data| {
      EofAtTheEnd(data, ending, coder, offset + PieceLen(|data|, offset));
    }
  }

  lemma LastMessage(data: bytes, ending: Ending, coder: Coder, offset: nat)
    requires |data| < TWO64 && offset == |data|
    ensures Messages(data, ending, coder, offset) == if ending.AtEof? then [Wire(Eof)] else []
  {
  }

  /** Both chunk loops emit the same pieces, except when a read failure comes in the middle of a piece. */
  lemma ProducersAgree(data: bytes, ending: Ending)
    ensures (if ending.AtEof? then PiecesFrom(data, 0) else FullPiecesFrom(data, 0)) == PiecesFrom(data, 0)
            <==> ending.AtEof? || OnGrid(|data|)
  {
    FullPiecesAreAll(data, 0);
  }

  lemma PrefixGrows(data: bytes, a: nat, b: nat)
    requires a <= b <= |data|
    ensures data[..b] == data[..a] + data[a..b]
  {
  }

  /** preHash: hashes the whole stream, reports its size and rewinds. */
  method PreHash(r: Reader, hash: bytes -> Digest, seekOk: bool) returns (res: Option<(Digest, nat)>)
    requires r.Valid() && r.pos == 0
    modifies r
    ensures r.Valid()
    ensures res.Some? <==> r.ending.AtEof? && seekOk
    ensures res.Some? ==> res.value == (hash(r.data), |r.data|) && r.pos == 0
  {
    var buf := new byte[32_768];
    var hashed: bytes := [];
    var ended := false;
    while !ended
      invariant r.Valid() && hashed == r.data[..r.pos]
      invariant ended ==> r.pos == |r.data|
      decreases !ended, |r.pattern| + |r.data| - r.pos
    {
      var n;
      ghost var at := r.pos;
      n, ended := r.Read(buf, 0);
      assert buf[..n] == r.data[at..r.pos];
      PrefixGrows(r.data, at, r.pos);
      hashed := hashed + buf[..n];
    }
    assert hashed == r.data;
    if r.ending.AtFault? || !seekOk {
      return None;
    }
    r.pos := 0;
    res := Some((hash(hashed), |hashed|));
  }
}
