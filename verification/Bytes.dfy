/** Bytes, machine words and big-endian integers shared by the codecs. */
module Bytes {

  type byte = x: int | 0 <= x < 0x100
  type u32 = x: int | 0 <= x < 0x1_0000_0000
  type u64 = x: int | 0 <= x < 0x1_0000_0000_0000_0000
  type bytes = seq<byte>

  const TWO32: nat := 0x1_0000_0000
  const TWO63: nat := 0x8000_0000_0000_0000
  const TWO64: nat := 0x1_0000_0000_0000_0000

  datatype Option<+T> = None | Some(value: T)

  datatype Result<+T, +E> = Ok(value: T) | Err(error: E)

  /** Number of values a big-endian field of width bytes can hold. */
  function Range(width: nat): (r: nat)
    ensures r >= 1
  {
    if width == 0 then 1 else 0x100 * Range(width - 1)
  }

  /** Big-endian encoding of n modulo the field's range (binary.BigEndian.PutUintXX). */
  function PutBE(n: nat, width: nat): (s: bytes)
    ensures |s| == width
  {
    if width == 0 then [] else PutBE(n / 0x100, width - 1) + [n % 0x100]
  }

  /** The number a big-endian field denotes (binary.BigEndian.UintXX). */
  function GetBE(s: bytes): nat {
    if s == [] then 0 else GetBE(s[..|s| - 1]) * 0x100 + s[|s| - 1]
  }

  lemma {:induction false} GetBEBound(s: bytes)
    ensures GetBE(s) < Range(|s|)
  {
    if s != [] {
      GetBEBound(s[..|s| - 1]);
    }
  }

  lemma {:induction false} GetPutBE(n: nat, width: nat)
    requires n < Range(width)
    ensures GetBE(PutBE(n, width)) == n
  {
    if width != 0 {
      var s := PutBE(n, width);
      assert s[..|s| - 1] == PutBE(n / 0x100, width - 1);
      GetPutBE(n / 0x100, width - 1);
    }
  }

  lemma {:induction false} PutGetBE(s: bytes)
    ensures PutBE(GetBE(s), |s|) == s
  {
    if s != [] {
      PutGetBE(s[..|s| - 1]);
      assert s == s[..|s| - 1] + [s[|s| - 1]];
    }
  }

  lemma Ranges()
    ensures Range(4) == TWO32
    ensures Range(8) == TWO64
  {
    assert Range(1) == 0x100 && Range(2) == 0x1_0000 && Range(3) == 0x100_0000;
    assert Range(5) == 0x100_0000_0000 && Range(6) == 0x1_0000_0000_0000;
    assert Range(7) == 0x100_0000_0000_0000;
  }
}
