/**
 * The base45 codec that wraps session descriptions (internal/utils/base45/base45.go).
 * RFC 9285 section 4 is stated position by position in `Encodes`, independently of the
 * two loops, and both loops are proved against it.
 */
module Base45 {
  import opened Bytes

  const INVALID: byte := 0xff
  const LAST_NINE: bytes := [32, 36, 37, 42, 43, 45, 46, 47, 58] // " $%*+-./:"

  datatype Error = InvalidLength | InvalidChar(which: byte) | OutOfRange

  /** The d'th character of "0123456789ABCDEFGHIJKLMNOPQRSTUVWXYZ $%*+-./:". */
  function Char(d: nat): byte
    requires d < 45
  {
    if d < 10 then 48 + d else if d < 36 then 55 + d else LAST_NINE[d - 36]
  }

  /** The alphabet is that of RFC 9285, table 1, in its order. */
  lemma AlphabetIsRfc(d: nat)
    requires d < 45
    ensures Char(d) == ("0123456789" + "ABCDEFGHIJKLMNOPQRSTUVWXYZ" + " $%*+-./:")[d] as int
  {
  }

  ghost predicate IsDigit(c: byte) { exists d: nat :: d < 45 && Char(d) == c }

  /** The base-45 digit a character stands for; INVALID outside the alphabet (RFC 9285 table 1). */
  ghost function Digit(c: byte): (d: byte)
    ensures IsDigit(c) <==> d != INVALID
    ensures IsDigit(c) ==> d < 45 && Char(d) == c
  {
    if IsDigit(c) then var d: nat :| d < 45 && Char(d) == c; d else INVALID
  }

  /** The alphabet has no repeated character, so Digit inverts it. */
  lemma DigitOfChar(d: nat)
    requires d < 45
    ensures Digit(Char(d)) == d
  {
    assert IsDigit(Char(d));
  }

  /** The lookup table, filled as the package initialiser fills it. */
  method BuildIndex() returns (t: array<byte>)
    ensures fresh(t) && IsIndex(t)
  {
    t := new byte[0x100];
    for ndx := 0 to 0x100
      invariant forall c :: 0 <= c < ndx ==> t[c] == INVALID
    {
      t[ndx] := INVALID;
    }
    for ndx := 0 to 45
      invariant forall c :: 0 <= c < 0x100 ==> t[c] == Below(c, ndx)
    {
      DigitOfChar(ndx);
      t[Char(ndx)] := ndx;
    }
  }

  ghost predicate IsIndex(t: array<byte>)
    reads t
  {
    t.Length == 0x100 && forall c :: 0 <= c < 0x100 ==> t[c] == Digit(c)
  }

  /** Entry for c after the first n characters have been entered. */
  ghost function Below(c: byte, n: nat): byte { if Digit(c) < n then Digit(c) else INVALID }

  // ---- RFC 9285 section 4 ----

  function Word(hi: int, lo: int): int { hi * 0x100 + lo }

  ghost function Value3(a: byte, b: byte, c: byte): nat { Digit(a) + 45 * (Digit(b) + 45 * Digit(c)) }

  ghost function Value2(a: byte, b: byte): nat { Digit(a) + 45 * Digit(b) }

  /** Three characters, least significant digit first, denote two bytes. */
  ghost predicate PairOk(p: bytes, i: nat, t: bytes, j: nat)
    requires i + 2 <= |p| && j + 3 <= |t|
  {
    && IsDigit(t[j]) && IsDigit(t[j + 1]) && IsDigit(t[j + 2])
    && Value3(t[j], t[j + 1], t[j + 2]) == Word(p[i], p[i + 1])
  }

  ghost predicate TailOk(last: byte, a: byte, b: byte) {
    IsDigit(a) && IsDigit(b) && Value2(a, b) == last
  }

  /** The first n pairs of bytes stand as n groups of three characters. */
  ghost predicate Pairs(p: bytes, n: nat, t: bytes)
    requires 2 * n <= |p| && 3 * n <= |t|
  {
    n == 0 || (Pairs(p, n - 1, t) && PairOk(p, 2 * n - 2, t, 3 * n - 3))
  }

  function EncodedLength(n: nat): nat { n / 2 * 3 + n % 2 * 2 }

  /** text is the base45 form of plain: pairs of bytes, then an odd last byte as two characters. */
  ghost predicate Encodes(plain: bytes, text: bytes) {
    && |text| == EncodedLength(|plain|)
    && Pairs(plain, |plain| / 2, text)
    && (|plain| % 2 == 1 ==> TailOk(plain[|plain| - 1], text[|text| - 2], text[|text| - 1]))
  }

  /** A base-45 numeral has one least significant digit. */
  lemma LeastDigit(d: nat, q: int, e: nat, r: int)
    requires d < 45 && e < 45 && d + 45 * q == e + 45 * r
    ensures d == e && q == r
  {
  }

  lemma DigitInjective(a: byte, b: byte)
    requires IsDigit(a) && Digit(a) == Digit(b)
    ensures a == b
  {
  }

  lemma ValueInjective(a: byte, b: byte, c: byte, x: byte, y: byte, z: byte)
    requires IsDigit(a) && IsDigit(b) && IsDigit(c) && IsDigit(x) && IsDigit(y) && IsDigit(z)
    ensures Value2(a, b) == Value2(x, y) ==> a == x && b == y
    ensures Value3(a, b, c) == Value3(x, y, z) ==> a == x && b == y && c == z
  {
    if Value2(a, b) == Value2(x, y) {
      LeastDigit(Digit(a), Digit(b), Digit(x), Digit(y));
      DigitInjective(a, x);
      DigitInjective(b, y);
    }
    if Value3(a, b, c) == Value3(x, y, z) {
      LeastDigit(Digit(a), Digit(b) + 45 * Digit(c), Digit(x), Digit(y) + 45 * Digit(z));
      LeastDigit(Digit(b), Digit(c), Digit(y), Digit(z));
      DigitInjective(a, x);
      DigitInjective(b, y);
      DigitInjective(c, z);
    }
  }

  lemma {:induction false} PairsInjective(p: bytes, q: bytes, n: nat, t: bytes)
    requires 2 * n <= |p| && 2 * n <= |q| && 3 * n <= |t| && Pairs(p, n, t) && Pairs(q, n, t)
    ensures forall k :: 0 <= k < 2 * n ==> p[k] == q[k]
  {
    if n > 0 {
      PairsInjective(p, q, n - 1, t);
    }
  }

  /** No two byte strings share an encoding: the encoding loses nothing. */
  lemma EncodesInjective(p: bytes, q: bytes, text: bytes)
    requires Encodes(p, text) && Encodes(q, text)
    ensures p == q
  {
    assert |p| == |q|;
    PairsInjective(p, q, |p| / 2, text);
  }

  lemma PairFunctional(p: bytes, i: nat, s: bytes, t: bytes, j: nat)
    requires i + 2 <= |p| && j + 3 <= |s| && j + 3 <= |t| && PairOk(p, i, s, j) && PairOk(p, i, t, j)
    ensures s[j] == t[j] && s[j + 1] == t[j + 1] && s[j + 2] == t[j + 2]
  {
    ValueInjective(s[j], s[j + 1], s[j + 2], t[j], t[j + 1], t[j + 2]);
  }

  lemma {:induction false} PairsFunctional(p: bytes, n: nat, s: bytes, t: bytes)
    requires 2 * n <= |p| && 3 * n <= |s| && 3 * n <= |t| && Pairs(p, n, s) && Pairs(p, n, t)
    ensures forall k :: 0 <= k < 3 * n ==> s[k] == t[k]
  {
    hide PairOk;
    if n > 0 {
      PairsFunctional(p, n - 1, s, t);
      PairFunctional(p, 2 * n - 2, s, t, 3 * n - 3);
    }
  }

  /** No byte string has two encodings: the form is canonical. */
  lemma EncodesFunctional(p: bytes, s: bytes, t: bytes)
    requires Encodes(p, s) && Encodes(p, t)
    ensures s == t
  {
    PairsFunctional(p, |p| / 2, s, t);
    if |p| % 2 == 1 {
      var j := |s| - 2;
      ValueInjective(s[j], s[j + 1], s[j], t[j], t[j + 1], t[j]);
    }
  }

  /** Only the first 2n bytes and 3n characters matter to the first n pairs. */
  lemma {:induction false} PairsPrefix(p: bytes, q: bytes, n: nat, s: bytes, t: bytes)
    requires 2 * n <= |p| && 2 * n <= |q| && 3 * n <= |s| && 3 * n <= |t| && Pairs(p, n, s)
    requires forall k :: 0 <= k < 2 * n ==> p[k] == q[k]
    requires forall k :: 0 <= k < 3 * n ==> s[k] == t[k]
    ensures Pairs(q, n, t)
  {
    if n > 0 {
      PairsPrefix(p, q, n - 1, s, t);
    }
  }

  lemma {:induction false} PairsAt(p: bytes, n: nat, t: bytes, k: nat)
    requires k < n && 2 * n <= |p| && 3 * n <= |t| && Pairs(p, n, t)
    ensures PairOk(p, 2 * k, t, 3 * k)
  {
    if k < n - 1 {
      PairsAt(p, n - 1, t, k);
    }
  }

  // ---- The two loops ----

  /** The three characters Encode emits for a pair of bytes denote it. */
  lemma PairGroup(word: nat)
    requires word < 0x1_0000
    ensures word / 2025 < 45
    ensures var a, b, c := Char(word % 45), Char(word / 45 % 45), Char(word / 2025);
            IsDigit(a) && IsDigit(b) && IsDigit(c) && Value3(a, b, c) == word
  {
    assert word / 2025 == word / 45 / 45;
    DigitOfChar(word % 45);
    DigitOfChar(word / 45 % 45);
    DigitOfChar(word / 2025);
  }

  /** Encode: every byte string gets its RFC 9285 form, with the preallocated length. */
  method Encode(src: bytes) returns (out: bytes)
    ensures Encodes(src, out)
    ensures |out| == |src| / 2 * 3 + |src| % 2 * 2
  {
    hide Encodes, Pairs, TailOk, PairOk;
    NoPairs(src, []);
    if |src| == 0 {
      Assemble(src, 0, []);
      return [];
    }
    out := [];
    var ndx := 0;
    ghost var n := 0;
    while ndx + 1 < |src|
      invariant 0 <= ndx == 2 * n <= |src| && |out| == 3 * n
      invariant Pairs(src, n, out)
    {
      var word := Word(src[ndx], src[ndx + 1]);
      PairGroup(word);
      var digit0, digit1, digit2 := word % 45, word / 45 % 45, word / 2025;
      EncodeGroup(src, n, out, Char(digit0), Char(digit1), Char(digit2));
      out := out + [Char(digit0), Char(digit1), Char(digit2)];
      ndx, n := ndx + 2, n + 1;
    }
    if ndx < |src| {
      var word := src[ndx];
      EncodeTail(src, n, out);
      out := out + [Char(word % 45), Char(word / 45)];
    }
    Assemble(src, n, out);
  }

  /** Appending the characters of the next pair keeps the encoded prefix correct. */
  lemma EncodeGroup(src: bytes, n: nat, out: bytes, a: byte, b: byte, c: byte)
    requires 2 * n + 2 <= |src| && |out| == 3 * n && Pairs(src, n, out)
    requires IsDigit(a) && IsDigit(b) && IsDigit(c) && Value3(a, b, c) == Word(src[2 * n], src[2 * n + 1])
    ensures Pairs(src, n + 1, out + [a, b, c])
  {
    PairsPrefix(src, src, n, out, out + [a, b, c]);
  }

  lemma EncodeTail(src: bytes, n: nat, out: bytes)
    requires |src| == 2 * n + 1 && |out| == 3 * n && Pairs(src, n, out)
    ensures var w := src[2 * n];
            Pairs(src, n, out + [Char(w % 45), Char(w / 45)]) && TailOk(w, Char(w % 45), Char(w / 45))
  {
    var w := src[2 * n];
    DigitOfChar(w % 45);
    DigitOfChar(w / 45);
    PairsPrefix(src, src, n, out, out + [Char(w % 45), Char(w / 45)]);
  }

  /** The number a chunk denotes from character i on, least significant digit first. */
  ghost function ChunkValue(chunk: bytes, i: nat): nat
    requires i <= |chunk|
    decreases |chunk| - i
  {
    if i == |chunk| then 0 else Digit(chunk[i]) + 45 * ChunkValue(chunk, i + 1)
  }

  /** decodeChunk: accumulates from the last character; reports the last invalid one. */
  method DecodeChunk(index: array<byte>, chunk: bytes) returns (r: Result<nat, Error>)
    requires IsIndex(index)
    ensures r.Ok? ==> (forall k :: 0 <= k < |chunk| ==> IsDigit(chunk[k])) && r.value == ChunkValue(chunk, 0)
    ensures r.Err? ==> exists k :: 0 <= k < |chunk| && !IsDigit(chunk[k]) && r.error == InvalidChar(chunk[k])
                         && forall j :: k < j < |chunk| ==> IsDigit(chunk[j])
  {
    var acc: nat := 0;
    var ndx := |chunk| - 1;
    while ndx >= 0
      invariant -1 <= ndx < |chunk|
      invariant forall k :: ndx < k < |chunk| ==> IsDigit(chunk[k])
      invariant acc == ChunkValue(chunk, ndx + 1)
      decreases ndx
    {
      var digit := index[chunk[ndx]];
      if digit == INVALID {
        return Err(InvalidChar(chunk[ndx]));
      }
      acc := acc * 45 + digit;
      ndx := ndx - 1;
    }
    r := Ok(acc);
  }

  /** Whether the characters of text from at on form an acceptable group (two or three of them). */
  ghost predicate GroupOk(text: bytes, at: nat, next: nat)
    requires at + 2 <= next <= |text| && next <= at + 3
  {
    && IsDigit(text[at]) && IsDigit(text[at + 1])
    && (if next == at + 2 then Value2(text[at], text[at + 1]) < 0x100
        else IsDigit(text[at + 2]) && Value3(text[at], text[at + 1], text[at + 2]) < 0x1_0000)
  }

  /** The error for an unacceptable group: its last character outside the alphabet, or else its value. */
  ghost predicate Blames(text: bytes, at: nat, next: nat, e: Error)
    requires at <= next <= |text|
  {
    match e
    case InvalidLength => false
    case InvalidChar(c) =>
      exists k :: at <= k < next && text[k] == c && !IsDigit(c) && forall j :: k < j < next ==> IsDigit(text[j])
    case OutOfRange => forall j :: at <= j < next ==> IsDigit(text[j])
  }

  /** Where group n of the text ends. */
  function GroupEnd(text: bytes, n: nat): nat { if 3 * n + 3 <= |text| then 3 * n + 3 else |text| }

  /** Group n is the first unacceptable one, and e its error. */
  ghost predicate FirstBad(text: bytes, n: nat, e: Error) {
    && 3 * n + 2 <= |text| && !GroupOk(text, 3 * n, GroupEnd(text, n)) && Blames(text, 3 * n, GroupEnd(text, n), e)
    && forall m :: 0 <= m < n ==> GroupOk(text, 3 * m, 3 * m + 3)
  }

  lemma {:induction false} PairsAreOk(p: bytes, n: nat, t: bytes)
    requires 2 * n <= |p| && 3 * n <= |t| && Pairs(p, n, t)
    ensures forall m :: 0 <= m < n ==> GroupOk(t, 3 * m, 3 * m + 3)
  {
    if n > 0 {
      PairsAreOk(p, n - 1, t);
    }
  }

  /** A text with an unacceptable group encodes nothing. */
  lemma BadGroup(text: bytes, n: nat, next: nat)
    requires 3 * n + 2 <= next <= |text| && next == if 3 * n + 3 <= |text| then 3 * n + 3 else |text|
    requires !GroupOk(text, 3 * n, next)
    ensures forall plain :: !Encodes(plain, text)
  {
    forall plain ensures !Encodes(plain, text) {
      if |text| == EncodedLength(|plain|) && Pairs(plain, |plain| / 2, text) && n < |plain| / 2 {
        PairsAt(plain, |plain| / 2, text, n);
      }
    }
  }

  /** The bytes Decode appends for a group of three or two characters. */
  function GroupBytes(word: nat, chars: nat): (r: bytes)
    requires word < if chars == 3 then 0x1_0000 else 0x100
  {
    if chars == 3 then [word / 0x100, word % 0x100] else [word]
  }

  /** One group of the text, from decodeChunk to the appended bytes. */
  method DecodeGroup(index: array<byte>, text: bytes, n: nat, next: nat, out: bytes)
    returns (r: Result<bytes, Error>)
    requires IsIndex(index) && |out| == 2 * n && 3 * n + 2 <= next <= |text|
    requires next == if 3 * n + 3 <= |text| then 3 * n + 3 else |text|
    requires Pairs(out, n, text)
    ensures r.Ok? && next == 3 * n + 3 ==> |r.value| == 2 * n + 2 && Pairs(r.value, n + 1, text)
    ensures r.Ok? && next == 3 * n + 2 ==>
              |r.value| == 2 * n + 1 && Pairs(r.value, n, text) && TailOk(r.value[2 * n], text[3 * n], text[3 * n + 1])
    ensures r.Err? ==> (forall plain :: !Encodes(plain, text)) && r.error != InvalidLength
    ensures r.Err? && r.error.InvalidChar? ==> r.error.which in text && !IsDigit(r.error.which)
    ensures r.Err? ==> next <= 3 * n + 3 && !GroupOk(text, 3 * n, next) && Blames(text, 3 * n, next, r.error)
  {
    hide Encodes, IsDigit, PairOk, GroupOk;
    var at := 3 * n;
    var chunk := text[at..next];
    var word := DecodeChunk(index, chunk);
    ChunkMeans(text, at, next, word);
    if word.Err? {
      BadGroup(text, n, next);
      return Err(word.error);
    }
    if word.value > if next == at + 3 then 0xffff else 0xff {
      BadGroup(text, n, next);
      return Err(OutOfRange);
    }
    r := Ok(out + GroupBytes(word.value, next - at));
    AppendGroup(text, n, next, out, word.value);
  }

  lemma AppendGroup(text: bytes, n: nat, next: nat, out: bytes, word: nat)
    requires |out| == 2 * n && 3 * n + 2 <= next <= |text| && next <= 3 * n + 3
    requires Pairs(out, n, text) && GroupOk(text, 3 * n, next)
    requires word == if next == 3 * n + 2 then Value2(text[3 * n], text[3 * n + 1])
                     else Value3(text[3 * n], text[3 * n + 1], text[3 * n + 2])
    ensures var r := out + GroupBytes(word, next - 3 * n);
            if next == 3 * n + 3 then |r| == 2 * n + 2 && Pairs(r, n + 1, text)
            else |r| == 2 * n + 1 && Pairs(r, n, text) && TailOk(r[2 * n], text[3 * n], text[3 * n + 1])
  {
    var r := out + GroupBytes(word, next - 3 * n);
    PairsPrefix(out, r, n, text, text);
  }

  lemma ChunkMeans(text: bytes, at: nat, next: nat, word: Result<nat, Error>)
    requires at + 2 <= next <= |text| && next <= at + 3
    requires var chunk := text[at..next];
             && (word.Ok? ==> (forall k :: 0 <= k < |chunk| ==> IsDigit(chunk[k])) && word.value == ChunkValue(chunk, 0))
             && (word.Err? ==> exists k :: 0 <= k < |chunk| && !IsDigit(chunk[k]) && word.error == InvalidChar(chunk[k])
                                && forall j :: k < j < |chunk| ==> IsDigit(chunk[j]))
    ensures word.Ok? ==>
              && word.value == (if next == at + 2 then Value2(text[at], text[at + 1])
                                else Value3(text[at], text[at + 1], text[at + 2]))
              && (GroupOk(text, at, next) <==> word.value < if next == at + 2 then 0x100 else 0x1_0000)
    ensures word.Err? ==> !GroupOk(text, at, next)
    ensures word.Err? ==> Blames(text, at, next, word.error)
    ensures word.Ok? ==> Blames(text, at, next, OutOfRange)
    ensures word.Err? ==>
              word.error.InvalidChar? && exists k :: at <= k < next && word.error.which == text[k] && !IsDigit(text[k])
  {
    var chunk := text[at..next];
    assert forall k :: at <= k < next ==> text[k] == chunk[k - at];
    assert ChunkValue(chunk, 0) == Digit(chunk[0]) + 45 * ChunkValue(chunk, 1);
    assert ChunkValue(chunk, 1) == Digit(chunk[1]) + 45 * ChunkValue(chunk, 2);
    if |chunk| == 3 {
      assert ChunkValue(chunk, 2) == Digit(chunk[2]);
    }
    if word.Err? {
      var k :| 0 <= k < |chunk| && !IsDigit(chunk[k]) && word.error == InvalidChar(chunk[k]);
      assert text[at + k] == chunk[k];
    }
  }

  lemma FirstBadAt(p: bytes, n: nat, next: nat, text: bytes, e: Error)
    requires 2 * n <= |p| && 3 * n + 2 <= next <= |text| && Pairs(p, n, text)
    requires next == if 3 * n + 3 <= |text| then 3 * n + 3 else |text|
    requires !GroupOk(text, 3 * n, next) && Blames(text, 3 * n, next, e)
    ensures FirstBad(text, n, e)
  {
    hide GroupOk, Blames, Pairs;
    PairsAreOk(p, n, text);
  }

  lemma NoPairs(p: bytes, t: bytes)
    ensures Pairs(p, 0, t)
  {
  }

  lemma WrongLength(text: bytes)
    requires |text| % 3 == 1
    ensures forall plain :: !Encodes(plain, text)
  {
  }

  lemma Assemble(p: bytes, n: nat, t: bytes)
    requires 2 * n <= |p| <= 2 * n + 1 && 3 * n <= |t| && Pairs(p, n, t)
    requires |t| == 3 * n + if |p| == 2 * n then 0 else 2
    requires |p| == 2 * n + 1 ==> TailOk(p[2 * n], t[3 * n], t[3 * n + 1])
    ensures Encodes(p, t) && |p| == |t| / 3 * 2 + |t| % 3 / 2 && |t| == |p| / 2 * 3 + |p| % 2 * 2
  {
    assert |p| / 2 == n && |t| / 3 == n;
  }

  /**
   * Decode: accepts exactly the texts that encode some byte string, and returns that string;
   * a rejected text encodes nothing.
   */
  method Decode(index: array<byte>, encoded: bytes) returns (r: Result<bytes, Error>)
    requires IsIndex(index)
    ensures r.Ok? ==> Encodes(r.value, encoded) && |r.value| == |encoded| / 3 * 2 + |encoded| % 3 / 2
    ensures r.Err? ==> forall plain :: !Encodes(plain, encoded)
    ensures r == Err(InvalidLength) <==> |encoded| % 3 == 1
    ensures r.Err? && r.error.InvalidChar? ==> r.error.which in encoded && !IsDigit(r.error.which)
    ensures r.Err? && r.error != InvalidLength ==> exists n :: FirstBad(encoded, n, r.error)
  {
    hide *;
    if encoded == [] {
      Assemble([], 0, encoded);
      return Ok([]);
    }
    var rem := |encoded| % 3;
    if rem == 1 {
      WrongLength(encoded);
      return Err(InvalidLength);
    }
    var out: bytes := [];
    var ndx, n := 0, 0;
    NoPairs(out, encoded);
    while ndx + 3 <= |encoded|
      invariant 0 <= ndx == 3 * n <= |encoded| && |out| == 2 * n
      invariant Pairs(out, n, encoded)
    {
      var next := DecodeGroup(index, encoded, n, ndx + 3, out);
      if next.Err? {
        FirstBadAt(out, n, ndx + 3, encoded, next.error);
        return next;
      }
      out := next.value;
      ndx, n := ndx + 3, n + 1;
    }
    if rem == 2 {
      r := DecodeGroup(index, encoded, n, ndx + 2, out);
      if r.Err? {
        FirstBadAt(out, n, ndx + 2, encoded, r.error);
        return;
      }
    } else {
      r := Ok(out);
    }
    Assemble(r.value, n, encoded);
  }

  /** Decode(Encode(b)) == b for every byte string. */
  method RoundTrip(index: array<byte>, src: bytes) returns (text: bytes, back: Result<bytes, Error>)
    requires IsIndex(index)
    ensures Encodes(src, text)
    ensures back == Ok(src)
  {
    text := Encode(src);
    back := Decode(index, text);
    if back.Ok? {
      EncodesInjective(src, back.value, text);
    }
  }

  /** Every accepted text is the one Encode produces; what is accepted is exactly Encode's image. */
  method Canonical(index: array<byte>, text: bytes) returns (back: Result<bytes, Error>, again: bytes)
    requires IsIndex(index)
    ensures back.Ok? ==> again == text
    ensures back.Ok? <==> exists plain :: Encodes(plain, text)
  {
    back := Decode(index, text);
    again := [];
    if back.Ok? {
      assert Encodes(back.value, text);
      again := Encode(back.value);
      EncodesFunctional(back.value, again, text);
    }
  }

  // ---- The vectors of RFC 9285, sections 4.3 and 4.4 ----

  /** The digits at which the characters of the vectors stand. */
  lemma VectorDigits()
    ensures Digit(66) == 11 && Digit(56) == 8 && Digit(81) == 26 && Digit(69) == 14 && Digit(68) == 13 && Digit(87) == 32
    ensures Digit(88) == 33 && Digit(48) == 0 && Digit(37) == 38 && Digit(54) == 6 && Digit(57) == 9 && Digit(32) == 36
    ensures Digit(86) == 31 && Digit(50) == 2
  {
    forall d: nat | d < 45 ensures Digit(Char(d)) == d { DigitOfChar(d); }
    hide Digit;
    assert Char(11) == 66 && Char(8) == 56 && Char(26) == 81 && Char(14) == 69 && Char(13) == 68 && Char(32) == 87;
    assert Char(33) == 88 && Char(0) == 48 && Char(38) == 37 && Char(6) == 54 && Char(9) == 57 && Char(36) == 32;
    assert Char(31) == 86 && Char(2) == 50;
  }

  /** "AB" stands as "BB8". */
  lemma RfcVectorAB()
    ensures Encodes([65, 66], [66, 66, 56])
  {
    VectorDigits();
    hide Digit;
    var p, t: bytes := [65, 66], [66, 66, 56];
    assert Pairs(p, 0, t) && PairOk(p, 0, t, 0);
  }

  /** "ietf!" stands as "QED8WEX0". */
  lemma RfcVectorIetf()
    ensures Encodes([105, 101, 116, 102, 33], [81, 69, 68, 56, 87, 69, 88, 48])
  {
    VectorDigits();
    hide Digit;
    var p, t: bytes := [105, 101, 116, 102, 33], [81, 69, 68, 56, 87, 69, 88, 48];
    assert Pairs(p, 0, t) && PairOk(p, 0, t, 0);
    assert Pairs(p, 1, t) && PairOk(p, 2, t, 3);
  }

  /** "Hello!!" stands as "%69 VD92EX0", and as nothing else. */
  lemma RfcVectorHello()
    ensures forall t: bytes :: Encodes([72, 101, 108, 108, 111, 33, 33], t) <==>
              t == [37, 54, 57, 32, 86, 68, 57, 50, 69, 88, 48]
  {
    VectorDigits();
    hide Digit;
    var p, t: bytes := [72, 101, 108, 108, 111, 33, 33], [37, 54, 57, 32, 86, 68, 57, 50, 69, 88, 48];
    assert Encodes(p, t) by {
      assert Pairs(p, 0, t) && PairOk(p, 0, t, 0);
      assert Pairs(p, 1, t) && PairOk(p, 2, t, 3);
      assert Pairs(p, 2, t) && PairOk(p, 4, t, 6);
    }
    hide Encodes;
    forall other: bytes | Encodes(p, other) ensures other == t { EncodesFunctional(p, other, t); }
  }
}
