/**
 * LEB128 integers (WebAssembly Core Specification 2.0, section 5.2.2) as the
 * rewriter encodes and decodes them.
 */
module Leb {
  import opened Prelude

  type byte = n: int | 0 <= n < 256

  const TWO32: int := 0x1_0000_0000

  type u32 = n: int | 0 <= n < TWO32
  type s32 = n: int | -0x8000_0000 <= n < 0x8000_0000

  datatype Error =
    | TruncatedSection | InvalidU32 | InvalidInteger | OneMemory | TruncatedMemory | UnsharedOnly | InvalidLimits
    | InitialExceeds | InvalidHeader

  datatype Read<+T> = Read(value: T, rest: seq<byte>)

  // --------------------------------------------------------------- encoding

  /** `leb` and `Writer.u32` */
  function EncodeU32(v: nat): (out: seq<byte>)
    ensures |out| > 0
  {
    if v < 128 then [v] else [v % 128 + 128] + EncodeU32(v / 128)
  }

  /** `Writer.s32`: `>>` floors. */
  function EncodeS32(v: int): (out: seq<byte>)
    ensures |out| > 0
    decreases if v < 0 then -v - 1 else v
  {
    var low, high := v % 128, v / 128;
    if (high == 0 && low < 64) || (high == -1 && low >= 64) then [low] else [low + 128] + EncodeS32(high)
  }

  // --------------------------------------------------------------- decoding

  /** The weight of byte i, 2 ** (7 * i). */
  function Weight(i: nat): nat
    requires i <= 5
  {
    if i == 0 then 1 else if i == 1 then 0x80 else if i == 2 then 0x4000 else if i == 3 then 0x20_0000
    else if i == 4 then 0x1000_0000 else 0x8_0000_0000
  }

  /** What byte i contributes: `(byte & 127) * 2 ** (7 * i)`, or `(byte & 127) << (7 * i)`. */
  function Bits(b: byte, i: nat): nat
    requires i <= 4
  {
    b % 128 * Weight(i)
  }

  /** `Reader.u32` from byte i on. */
  function DecodeU32From(b: seq<byte>, i: nat, value: nat): (r: Result<Read<nat>, Error>)
    requires i <= 5
    decreases 5 - i
  {
    if i == 5 then Err(InvalidU32)
    else if b == [] then Err(TruncatedSection)
    else if i == 4 && b[0] > 15 then Err(InvalidU32)
    else
      var value' := value + Bits(b[0], i);
      if b[0] < 128 then Ok(Read(value', b[1..])) else DecodeU32From(b[1..], i + 1, value')
  }

  function DecodeU32(b: seq<byte>): Result<Read<nat>, Error> {
    DecodeU32From(b, 0, 0)
  }

  lemma U32Starts(b: seq<byte>)
    ensures DecodeU32(b) == DecodeU32From(b, 0, 0)
  {
  }

  lemma U32Step(b: seq<byte>, i: nat, value: nat)
    requires i <= 4
    ensures DecodeU32From(b, i, value)
         == if b == [] then Err(TruncatedSection)
            else if i == 4 && b[0] > 15 then Err(InvalidU32)
            else if b[0] < 128 then Ok(Read(value + Bits(b[0], i), b[1..]))
            else DecodeU32From(b[1..], i + 1, value + Bits(b[0], i))
  {
  }

  lemma U32Ends(b: seq<byte>, value: nat)
    ensures DecodeU32From(b, 5, value) == Err(InvalidU32)
  {
  }

  /** The Int32 with these low 32 bits. */
  function ToInt32(n: int): (r: s32)
    ensures (n - r) % TWO32 == 0
  {
    var m := n % TWO32;
    if m >= 0x8000_0000 then m - TWO32 else m
  }

  /**
   * `Reader.s32` from byte i on. The bits a byte contributes are not set yet,
   * so `|` adds them, modulo 2 ** 32 as `<<` keeps only 32 bits.
   */
  function DecodeS32From(b: seq<byte>, i: nat, value: int): (r: Result<Read<s32>, Error>)
    requires i <= 5
    decreases 5 - i
  {
    if i == 5 then Err(InvalidInteger)
    else if b == [] then Err(TruncatedSection)
    else
      var value' := value + Bits(b[0], i);
      if b[0] >= 128 then DecodeS32From(b[1..], i + 1, value')
      else
        var signed := if i < 4 && b[0] >= 64 then value' - Weight(i + 1) else value';
        Ok(Read(ToInt32(signed), b[1..]))
  }

  function DecodeS32(b: seq<byte>): Result<Read<s32>, Error> {
    DecodeS32From(b, 0, 0)
  }

  // ------------------------------------------------------------ round trips

  /** One group of seven bits, at its weight. */
  lemma Group(v: int, i: nat)
    requires i <= 4
    ensures v * Weight(i) == v % 128 * Weight(i) + v / 128 * Weight(i + 1)
  {
    assert v == v % 128 + v / 128 * 128;
  }

  lemma LastU32Group(v: nat, i: nat)
    requires i <= 4 && v * Weight(i) < TWO32
    ensures v < 128 || (i < 4 && v / 128 * Weight(i + 1) < TWO32)
    ensures i == 4 ==> v <= 15
  {
  }

  lemma {:induction false} U32From(v: nat, rest: seq<byte>, i: nat, value: nat)
    requires i <= 4 && v * Weight(i) < TWO32
    ensures DecodeU32From(EncodeU32(v) + rest, i, value) == Ok(Read(value + v * Weight(i), rest))
    decreases v
  {
    var b := EncodeU32(v) + rest;
    Group(v, i);
    LastU32Group(v, i);
    hide Weight;
    if v < 128 {
      assert b == [v] + rest && b[1..] == rest;
    } else {
      var w := v / 128;
      assert b[0] % 128 == v % 128;
      assert b[1..] == EncodeU32(w) + rest;
      U32From(w, rest, i + 1, value + Bits(b[0], i));
    }
  }

  /** Reading undoes writing, on every u32 and whatever follows. */
  lemma U32RoundTrip(v: u32, rest: seq<byte>)
    ensures DecodeU32(EncodeU32(v) + rest) == Ok(Read(v, rest))
    ensures |EncodeU32(v)| <= 5
  {
    U32From(v, rest, 0, 0);
    U32Length(v, 0);
  }

  lemma {:induction false} U32Length(v: nat, i: nat)
    requires i <= 4 && v * Weight(i) < TWO32
    ensures |EncodeU32(v)| <= 5 - i
    decreases v
  {
    if v >= 128 {
      U32Length(v / 128, i + 1);
    }
  }

  lemma {:induction false} U32Range(b: seq<byte>, i: nat, value: nat)
    requires i <= 5 && value < Weight(i)
    ensures var r := DecodeU32From(b, i, value); r.Ok? ==> value <= r.value.value < TWO32 && |r.value.rest| < |b|
    decreases 5 - i
  {
    if i < 5 && b != [] && !(i == 4 && b[0] > 15) {
      if b[0] >= 128 {
        U32Range(b[1..], i + 1, value + Bits(b[0], i));
      }
    }
  }

  /** Whatever is accepted is a u32, even if its encoding is not the shortest. */
  lemma U32Accepted(b: seq<byte>)
    ensures var r := DecodeU32(b); r.Ok? ==> r.value.value < TWO32 && |r.value.rest| < |b|
  {
    U32Range(b, 0, 0);
  }

  /** The fifth byte is the last one of an i32. */
  lemma LastGroup(v: int, i: nat)
    requires i <= 4 && -0x8000_0000 <= v * Weight(i) < 0x8000_0000
    requires !((v / 128 == 0 && v % 128 < 64) || (v / 128 == -1 && v % 128 >= 64))
    ensures i < 4 && -0x8000_0000 <= v / 128 * Weight(i + 1) < 0x8000_0000
  {
  }

  /** The last group of an i32 carries its sign. */
  lemma S32Last(v: int, rest: seq<byte>, i: nat, value: int)
    requires i <= 4 && -0x8000_0000 <= v * Weight(i) < 0x8000_0000
    requires (v / 128 == 0 && v % 128 < 64) || (v / 128 == -1 && v % 128 >= 64)
    ensures DecodeS32From([v % 128] + rest, i, value) == Ok(Read(ToInt32(value + v * Weight(i)), rest))
  {
    var b, value' := [v % 128] + rest, value + v % 128 * Weight(i);
    assert b[1..] == rest;
    Group(v, i);
    if i == 4 && v / 128 == -1 {
      assert Weight(5) == 8 * TWO32;
      Int32Turns(value', -8);
    }
    hide ToInt32, Weight;
  }

  lemma {:induction false} S32From(v: int, rest: seq<byte>, i: nat, value: int)
    requires i <= 4 && -0x8000_0000 <= v * Weight(i) < 0x8000_0000
    ensures DecodeS32From(EncodeS32(v) + rest, i, value) == Ok(Read(ToInt32(value + v * Weight(i)), rest))
    decreases if v < 0 then -v - 1 else v
  {
    var low, high := v % 128, v / 128;
    if (high == 0 && low < 64) || (high == -1 && low >= 64) {
      S32Last(v, rest, i, value);
      hide DecodeS32From, ToInt32, Weight;
    } else {
      LastGroup(v, i);
      Group(v, i);
      hide ToInt32, Weight;
      var b := EncodeS32(v) + rest;
      assert b[0] == low + 128 && b[0] % 128 == low;
      assert b[1..] == EncodeS32(high) + rest;
      S32From(high, rest, i + 1, value + low * Weight(i));
    }
  }

  lemma Int32Turns(n: int, k: int)
    ensures ToInt32(n) == ToInt32(n + k * TWO32)
  {
    assert (n + k * TWO32) % TWO32 == n % TWO32;
  }

  /** Reading undoes writing, on every i32 and whatever follows. */
  lemma S32RoundTrip(v: s32, rest: seq<byte>)
    ensures DecodeS32(EncodeS32(v) + rest) == Ok(Read(v, rest))
  {
    assert Weight(0) == 1 && ToInt32(v) == v;
    hide Weight, ToInt32;
    S32From(v, rest, 0, 0);
    hide DecodeS32From, EncodeS32;
  }
}
