/** The rewriter's Reader and Writer, updated in place. */
module Codec {
  import opened Prelude
  import opened Leb

  class Reader {
    const bytes: seq<byte>
    const end: nat
    var position: nat

    ghost predicate Valid()
      reads this
    {
      position <= end <= |bytes|
    }

    function Left(): seq<byte>
      reads this
      requires Valid()
    {
      bytes[position..end]
    }

    constructor (bytes: seq<byte>, start: nat, end: nat)
      requires start <= end <= |bytes|
      ensures Valid() && this.bytes == bytes && this.end == end && position == start
    {
      this.bytes, this.end, position := bytes, end, start;
    }

    method Byte() returns (r: Result<byte, Error>)
      requires Valid()
      modifies `position
      ensures Valid()
      ensures r == if old(Left()) == [] then Err(TruncatedSection) else Ok(old(Left())[0])
      ensures position == old(position) + (if r.Ok? then 1 else 0)
    {
      if position >= end {
        return Err(TruncatedSection);
      }
      r := Ok(bytes[position]);
      position := position + 1;
    }

    method U32() returns (r: Result<nat, Error>)
      requires Valid()
      modifies `position
      ensures Valid() && position >= old(position)
      ensures match DecodeU32(old(Left()))
              case Err(e) => r == Err(e)
              case Ok(got) => r == Ok(got.value) && Left() == got.rest && position > old(position)
    {
      ghost var all := Left();
      hide Bits, DecodeU32, DecodeU32From;
      U32Starts(all);
      var value: nat := 0;
      for i := 0 to 5
        invariant Valid() && position >= old(position) && (i > 0 ==> position > old(position))
        invariant DecodeU32(all) == DecodeU32From(Left(), i, value)
      {
        ghost var before := Left();
        U32Step(before, i, value);
        var b := Byte();
        if b.Err? {
          return b;
        }
        assert Left() == before[1..];
        if i == 4 && b.value > 15 {
          return Err(InvalidU32);
        }
        value := value + Bits(b.value, i);
        if b.value < 128 {
          return Ok(value);
        }
      }
      U32Ends(Left(), value);
      r := Err(InvalidU32);
    }

    method S32() returns (r: Result<s32, Error>)
      requires Valid()
      modifies `position
      ensures Valid()
      ensures match DecodeS32(old(Left()))
              case Err(e) => r == Err(e)
              case Ok(got) => r == Ok(got.value) && Left() == got.rest
    {
      ghost var all := Left();
      hide ToInt32, Bits, Weight;
      var value, i := 0, 0;
      while true
        invariant Valid() && i <= 5
        invariant DecodeS32(all) == DecodeS32From(Left(), i, value)
        decreases 5 - i
      {
        if i >= 5 {
          return Err(InvalidInteger);
        }
        ghost var before := Left();
        var b := Byte();
        if b.Err? {
          return Err(TruncatedSection);
        }
        assert Left() == before[1..];
        value := value + Bits(b.value, i);
        i := i + 1;
        if b.value < 128 {
          return Ok(ToInt32(if i < 5 && b.value >= 64 then value - Weight(i) else value));
        }
      }
    }

    method Skip(count: nat) returns (r: Result<(), Error>)
      requires Valid()
      modifies `position
      ensures Valid()
      ensures r.Ok? <==> count <= |old(Left())|
      ensures r.Ok? ==> Left() == old(Left())[count..]
      ensures r.Err? ==> r == Err(TruncatedSection) && position == old(position)
    {
      if count > end - position {
        return Err(TruncatedSection);
      }
      position := position + count;
      r := Ok(());
    }
  }

  // ----------------------------------------------------------------- writing

  function Flat(parts: seq<seq<byte>>): seq<byte> {
    if parts == [] then [] else Flat(parts[..|parts| - 1]) + parts[|parts| - 1]
  }

  lemma {:induction false} FlatCat(a: seq<seq<byte>>, b: seq<seq<byte>>)
    ensures Flat(a + b) == Flat(a) + Flat(b)
    decreases |b|
  {
    if b == [] {
      assert a + b == a;
    } else {
      var n := |b| - 1;
      FlatCat(a, b[..n]);
      assert (a + b)[..|a + b| - 1] == a + b[..n];
    }
  }

  lemma FlatPush(a: seq<seq<byte>>, p: seq<byte>)
    ensures Flat(a + [p]) == Flat(a) + p
  {
    assert (a + [p])[..|a|] == a;
  }

  lemma FlatAt(a: seq<seq<byte>>, s: nat, p: seq<byte>)
    requires s < |a|
    ensures Flat(a[s := p]) == Flat(a[..s]) + p + Flat(a[s + 1..])
  {
    assert a[s := p] == a[..s] + [p] + a[s + 1..];
    FlatCat(a[..s] + [p], a[s + 1..]);
    FlatPush(a[..s], p);
  }

  /** The first parts end where the next one begins. */
  lemma FlatTo(parts: seq<seq<byte>>, i: nat)
    requires i < |parts|
    ensures Flat(parts[..i + 1]) == Flat(parts[..i]) + parts[i]
    ensures |Flat(parts[..i])| + |parts[i]| <= |Flat(parts)|
  {
    assert parts[..i + 1] == parts[..i] + [parts[i]];
    FlatPush(parts[..i], parts[i]);
    FlatAt(parts, i, parts[i]);
    assert parts[i := parts[i]] == parts;
  }

  /** `output.set(part, offset)` */
  method Set(output: array<byte>, offset: nat, part: seq<byte>)
    requires offset + |part| <= output.Length
    modifies output
    ensures output[..offset + |part|] == old(output[..offset]) + part
  {
    ghost var before := output[..offset];
    for j := 0 to |part|
      invariant output[..offset + j] == before + part[..j]
    {
      output[offset + j] := part[j];
    }
    assert part[..|part|] == part;
  }

  class Writer {
    var parts: seq<seq<byte>>
    var pending: seq<byte>
    var length: nat

    function Contents(): seq<byte>
      reads this
    {
      Flat(parts) + pending
    }

    /** `length` is always the number of bytes that `finish` would emit. */
    ghost predicate Valid()
      reads this
    {
      length == |Contents()|
    }

    constructor ()
      ensures Valid() && parts == [] && Contents() == []
    {
      parts, pending, length := [], [], 0;
    }

    method Byte(value: byte)
      requires Valid()
      modifies this
      ensures Valid() && parts == old(parts)
      ensures Contents() == old(Contents()) + [value]
    {
      pending := pending + [value];
      length := length + 1;
    }

    method Flush()
      requires Valid()
      modifies `parts, `pending
      ensures Valid() && pending == []
      ensures Contents() == old(Contents())
      ensures old(parts) <= parts
    {
      if |pending| > 0 {
        FlatPush(parts, pending);
        parts := parts + [pending];
        pending := [];
      }
    }

    method Bytes(data: seq<byte>)
      requires Valid()
      modifies this
      ensures Valid() && old(parts) <= parts
      ensures Contents() == old(Contents()) + data
    {
      if |data| == 0 {
        assert Contents() == old(Contents()) + data;
        return;
      }
      Flush();
      FlatPush(parts, data);
      parts := parts + [data];
      length := length + |data|;
    }

    method U32(value: nat)
      requires Valid()
      modifies this
      ensures Valid() && parts == old(parts)
      ensures Contents() == old(Contents()) + EncodeU32(value)
    {
      var v := value;
      while v >= 128
        invariant Valid() && parts == old(parts)
        invariant Contents() + EncodeU32(v) == old(Contents()) + EncodeU32(value)
      {
        ghost var before := Contents();
        Byte(v % 128 + 128);
        assert before + EncodeU32(v) == Contents() + EncodeU32(v / 128);
        v := v / 128;
      }
      Byte(v);
    }

    method S32(value: int)
      requires Valid()
      modifies this
      ensures Valid() && parts == old(parts)
      ensures Contents() == old(Contents()) + EncodeS32(value)
    {
      var v := value;
      while true
        invariant Valid() && parts == old(parts)
        invariant Contents() + EncodeS32(v) == old(Contents()) + EncodeS32(value)
        decreases if v < 0 then -v - 1 else v
      {
        var low := v % 128;
        ghost var before := Contents();
        var next := v / 128;
        if (next == 0 && low < 64) || (next == -1 && low >= 64) {
          Byte(low);
          return;
        }
        Byte(low + 128);
        assert before + EncodeS32(v) == Contents() + EncodeS32(next);
        v := next;
      }
    }

    method Append(other: Writer)
      requires other != this && Valid() && other.Valid()
      modifies this, other
      ensures Valid() && other.Valid() && other.Contents() == old(other.Contents())
      ensures Contents() == old(Contents()) + old(other.Contents())
      ensures old(parts) <= parts
    {
      other.Flush();
      Flush();
      FlatCat(parts, other.parts);
      parts := parts + other.parts;
      length := length + other.length;
    }

    /** A part of its own, empty so far, between what precedes it and what follows. */
    method Slot() returns (s: nat)
      requires Valid()
      modifies `parts, `pending
      ensures Valid() && Contents() == old(Contents())
      ensures s < |parts| && parts[s] == [] && pending == []
      ensures Flat(parts[..s]) == old(Contents()) && s == |parts| - 1 && old(parts) <= parts
    {
      Flush();
      ghost var flushed := parts;
      FlatPush(parts, []);
      parts := parts + [[]];
      s := |parts| - 1;
      assert parts[..s] == flushed;
    }

    /** What was written before the slot, the slot's bytes, and what came after. */
    method Fill(s: nat, content: Writer)
      requires content != this && Valid() && content.Valid() && s < |parts|
      modifies `parts, `length, content
      ensures Valid() && content.Valid() && content.Contents() == old(content.Contents())
      ensures parts == old(parts)[s := old(content.Contents())]
      ensures Contents() == Flat(old(parts)[..s]) + old(content.Contents()) + Flat(old(parts)[s + 1..]) + old(pending)
    {
      var bytes := content.Finish();
      FlatAt(parts, s, parts[s]);
      FlatAt(parts, s, bytes);
      assert parts[s := parts[s]] == parts;
      length := length + |bytes| - |parts[s]|;
      parts := parts[s := bytes];
    }

    /** The output buffer has `length` bytes, and every part fits where it goes. */
    method Finish() returns (out: seq<byte>)
      requires Valid()
      modifies `parts, `pending
      ensures Valid() && out == Contents() == old(Contents())
    {
      Flush();
      ghost var all := parts;
      var output := new byte[length];
      var offset := 0;
      for i := 0 to |parts|
        invariant parts == all && pending == [] && length == old(length) == |Flat(all)|
        invariant offset == |Flat(parts[..i])| && offset <= length
        invariant output[..offset] == Flat(parts[..i])
      {
        FlatTo(parts, i);
        Set(output, offset, parts[i]);
        offset := offset + |parts[i]|;
      }
      assert parts[..|parts|] == parts;
      out := output[..];
    }
  }

  /** A section whose size is only known once its content is written. */
  method WriteSection(id: byte, content: Writer) returns (w: Writer)
    requires content.Valid() && |content.Contents()| < TWO32
    modifies content
    ensures fresh(w) && w.Valid()
    ensures w.Contents() == [id] + EncodeU32(|old(content.Contents())|) + old(content.Contents())
    ensures DecodeU32(w.Contents()[1..]) == Ok(Read(|old(content.Contents())|, old(content.Contents())))
  {
    hide EncodeU32, DecodeU32, Flat;
    w := new Writer();
    w.Byte(id);
    w.U32(content.length);
    w.Append(content);
    U32RoundTrip(|old(content.Contents())|, old(content.Contents()));
    assert w.Contents()[1..] == EncodeU32(|old(content.Contents())|) + old(content.Contents());
  }
}
