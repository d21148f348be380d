/**
 * The memory bound: the one defined memory of a module gets a maximum, and
 * every other byte stays (WebAssembly Core Specification 2.0, sections 5.5.2
 * and 5.5.8).
 */
module BoundMemory {
  import opened Prelude
  import opened Leb
  import opened Codec

  const MAX_PAGES: nat := 65536

  // ------------------------------------------------------ the memory section

  datatype Limits = Limits(initial: nat, maximum: nat)

  /** The limits of the one unshared memory a payload declares. */
  function ParseLimits(payload: seq<byte>): Result<Limits, Error> {
    match DecodeU32(payload)
    case Err(e) => Err(e)
    case Ok(count) =>
      if count.value != 1 then Err(OneMemory)
      else if count.rest == [] then Err(TruncatedMemory)
      else if count.rest[0] != 0 && count.rest[0] != 1 then Err(UnsharedOnly)
      else
        match DecodeU32(count.rest[1..])
        case Err(e) => Err(e)
        case Ok(initial) =>
          var maximum := if count.rest[0] == 1 then DecodeU32(initial.rest) else Ok(Read(MAX_PAGES, initial.rest));
          if maximum.Err? then Err(maximum.error)
          else if maximum.value.rest != [] || initial.value > maximum.value.value || maximum.value.value > MAX_PAGES
          then Err(InvalidLimits)
          else Ok(Limits(initial.value, maximum.value.value))
  }

  function Payload(l: Limits): seq<byte> {
    [1, 1] + EncodeU32(l.initial) + EncodeU32(l.maximum)
  }

  /** `boundedMemory` */
  function Bounded(payload: seq<byte>, maximum: nat): Result<seq<byte>, Error> {
    match ParseLimits(payload)
    case Err(e) => Err(e)
    case Ok(l) =>
      if l.initial > maximum then Err(InitialExceeds)
      else Ok(Payload(Limits(l.initial, Min(maximum, l.maximum))))
  }

  lemma ParsePayload(l: Limits)
    requires l.initial <= l.maximum <= MAX_PAGES
    ensures ParseLimits(Payload(l)) == Ok(l)
  {
    var p, b := Payload(l), EncodeU32(l.initial) + EncodeU32(l.maximum);
    U32RoundTrip(1, [1] + b);
    assert EncodeU32(1) == [1];
    assert p == EncodeU32(1) + ([1] + b);
    assert ([1] + b)[1..] == b;
    U32RoundTrip(l.initial, EncodeU32(l.maximum));
    U32RoundTrip(l.maximum, []);
    assert EncodeU32(l.maximum) + [] == EncodeU32(l.maximum);
    hide DecodeU32From, EncodeU32;
  }

  method BoundedMemory(section: Reader, maximum: nat) returns (r: Result<seq<byte>, Error>)
    requires section.Valid()
    modifies section`position
    ensures section.Valid() && r == Bounded(old(section.Left()), maximum)
  {
    hide DecodeU32From, EncodeU32;
    var count := section.U32();
    if count.Err? {
      return Err(count.error);
    }
    if count.value != 1 {
      return Err(OneMemory);
    }
    if section.position >= section.end {
      return Err(TruncatedMemory);
    }
    var flags := section.Byte();
    if flags.value != 0 && flags.value != 1 {
      return Err(UnsharedOnly);
    }
    var initial := section.U32();
    if initial.Err? {
      return Err(initial.error);
    }
    var declared: Result<nat, Error> := Ok(MAX_PAGES);
    if flags.value == 1 {
      declared := section.U32();
      if declared.Err? {
        return Err(declared.error);
      }
    }
    if section.position != section.end || initial.value > declared.value || declared.value > MAX_PAGES {
      return Err(InvalidLimits);
    }
    if initial.value > maximum {
      return Err(InitialExceeds);
    }
    r := Ok([1, 1] + EncodeU32(initial.value) + EncodeU32(Min(maximum, declared.value)));
  }

  // ---------------------------------------------------------------- sections

  datatype Section = Section(id: byte, payload: seq<byte>, bytes: seq<byte>)

  /** The first section, and the bytes after it. */
  function Next(b: seq<byte>): (r: Result<(Section, seq<byte>), Error>)
    requires b != []
    ensures r.Ok? ==> r.value.0.bytes + r.value.1 == b && |r.value.1| < |b|
  {
    match DecodeU32(b[1..])
    case Err(e) => Err(e)
    case Ok(size) =>
      U32Accepted(b[1..]);
      U32Suffix(b[1..]);
      if size.value > |size.rest| then Err(TruncatedSection)
      else
        var rest := size.rest[size.value..];
        Ok((Section(b[0], size.rest[..size.value], b[..|b| - |rest|]), rest))
  }

  /** What is left after reading is a suffix. */
  lemma U32Suffix(b: seq<byte>)
    ensures DecodeU32(b).Ok? ==> DecodeU32(b).value.rest == b[|b| - |DecodeU32(b).value.rest|..] && |DecodeU32(b).value.rest| <= |b|
  {
    U32SuffixFrom(b, 0, 0);
  }

  lemma {:induction false} U32SuffixFrom(b: seq<byte>, i: nat, value: nat)
    requires i <= 5
    ensures var r := DecodeU32From(b, i, value);
            r.Ok? ==> |r.value.rest| <= |b| && r.value.rest == b[|b| - |r.value.rest|..]
    decreases 5 - i
  {
    hide Bits;
    if i < 5 && b != [] && !(i == 4 && b[0] > 15) && b[0] >= 128 {
      U32SuffixFrom(b[1..], i + 1, value + Bits(b[0], i));
    }
  }

  /** All sections, in order. */
  function Sections(b: seq<byte>): Result<seq<Section>, Error>
    decreases |b|
  {
    if b == [] then Ok([])
    else
      match Next(b)
      case Err(e) => Err(e)
      case Ok((s, rest)) =>
        match Sections(rest)
        case Err(e) => Err(e)
        case Ok(more) => Ok([s] + more)
  }

  /** `boundMemory` after the header; `seen` once a memory section went by. */
  function Rewrite(b: seq<byte>, maximum: nat, seen: bool): Result<seq<byte>, Error>
    decreases |b|
  {
    if b == [] then (if seen then Ok([]) else Err(OneMemory))
    else
      match Next(b)
      case Err(e) => Err(e)
      case Ok((s, rest)) =>
        if s.id == 5 && seen then Err(OneMemory)
        else
          var out := if s.id == 5 then Replaced(s.payload, maximum) else Ok(s.bytes);
          if out.Err? then out
          else
            match Rewrite(rest, maximum, seen || s.id == 5)
            case Err(e) => Err(e)
            case Ok(more) => Ok(out.value + more)
  }

  /** The new memory section. */
  function Replaced(payload: seq<byte>, maximum: nat): Result<seq<byte>, Error> {
    match Bounded(payload, maximum)
    case Err(e) => Err(e)
    case Ok(p) => Ok([5] + EncodeU32(|p|) + p)
  }

  // -------------------------------------------------------- what is promised

  /** The next section by its positions in the module. */
  lemma NextAt(b: seq<byte>, start: nat)
    requires start < |b|
    ensures
      match DecodeU32(b[start + 1..])
      case Err(e) => Next(b[start..]) == Err(e)
      case Ok(size) =>
        && |size.rest| < |b| - start
        && var at := |b| - |size.rest|;
           && size.rest == b[at..]
           && Next(b[start..])
              == if size.value > |size.rest| then Err(TruncatedSection)
                 else Ok((Section(b[start], b[at..at + size.value], b[start..at + size.value]), b[at + size.value..]))
  {
    hide DecodeU32;
    var tail := b[start..];
    var left := b[start + 1..];
    assert tail[1..] == left;
    U32Accepted(left);
    U32Suffix(left);
    if DecodeU32(left).Ok? {
      var size := DecodeU32(left).value;
      Slices(b, start, size.rest, size.value);
    }
  }

  lemma Slices(b: seq<byte>, start: nat, rest: seq<byte>, size: nat)
    requires start < |b| && |rest| < |b| - start && rest == b[start + 1..][|b[start + 1..]| - |rest|..]
    ensures
      var at, tail := |b| - |rest|, b[start..];
      && rest == b[at..]
      && (size <= |rest| ==>
            && rest[size..] == b[at + size..]
            && rest[..size] == b[at..at + size]
            && tail[..|tail| - |rest[size..]|] == b[start..at + size])
  {
  }

  /** A section whose framing is known, whatever precedes its payload. */
  lemma NextFramed(id: byte, e: seq<byte>, p: seq<byte>, rest: seq<byte>)
    requires DecodeU32(e + (p + rest)) == Ok(Read(|p|, p + rest))
    ensures Next([id] + e + p + rest) == Ok((Section(id, p, [id] + e + p), rest))
  {
    var b := [id] + e + p + rest;
    var at := 1 + |e|;
    assert b[0 + 1..] == e + (p + rest);
    NextAt(b, 0);
    hide Next, DecodeU32;
    assert b[0..] == b;
    assert b[at..at + |p|] == p;
    assert b[0..at + |p|] == [id] + e + p;
    assert b[at + |p|..] == rest;
  }

  lemma NextOf(id: byte, p: seq<byte>, rest: seq<byte>)
    requires |p| < TWO32
    ensures Next([id] + EncodeU32(|p|) + p + rest) == Ok((Section(id, p, [id] + EncodeU32(|p|) + p), rest))
  {
    hide *;
    U32RoundTrip(|p|, p + rest);
    NextFramed(id, EncodeU32(|p|), p, rest);
  }

  /** A section keeps its framing whatever follows it. */
  lemma NextAgain(b: seq<byte>, rest: seq<byte>)
    requires b != [] && Next(b).Ok?
    ensures var s := Next(b).value.0;
            s.bytes != [] && Next(s.bytes + rest) == Ok((s, rest))
  {
    NextAt(b, 0);
    assert b[0..] == b;
    hide Next, DecodeU32;
    var size := DecodeU32(b[1..]).value;
    var s := Next(b).value.0;
    U32Prefix(b[1..], s.payload + rest);
    var e := b[1..|b| - |size.rest|];
    Framing(b, size.rest, size.value);
    NextFramed(b[0], e, s.payload, rest);
  }

  lemma Framing(b: seq<byte>, rest: seq<byte>, size: nat)
    requires b != [] && size <= |rest| < |b| && rest == b[|b| - |rest|..]
    ensures
      var at := |b| - |rest|;
      && b[1..][..|b[1..]| - |rest|] == b[1..at]
      && b[0..at + size] == [b[0]] + b[1..at] + b[at..at + size]
  {
  }

  lemma U32Prefix(b: seq<byte>, rest: seq<byte>)
    requires DecodeU32(b).Ok?
    ensures var got := DecodeU32(b).value;
            |got.rest| <= |b| && DecodeU32(b[..|b| - |got.rest|] + rest) == Ok(Read(got.value, rest))
  {
    U32Suffix(b);
    U32PrefixFrom(b, 0, 0, rest);
  }

  lemma {:induction false} U32PrefixFrom(b: seq<byte>, i: nat, value: nat, rest: seq<byte>)
    requires i <= 5 && DecodeU32From(b, i, value).Ok?
    ensures var got := DecodeU32From(b, i, value).value;
            && |got.rest| < |b|
            && DecodeU32From(b[..|b| - |got.rest|] + rest, i, value) == Ok(Read(got.value, rest))
    decreases 5 - i
  {
    hide Bits;
    var got := DecodeU32From(b, i, value).value;
    if b[0] >= 128 {
      var value' := value + Bits(b[0], i);
      U32PrefixFrom(b[1..], i + 1, value', rest);
      var n := |b| - |got.rest|;
      var c := b[..n] + rest;
      assert c[0] == b[0] && c[1..] == b[1..][..n - 1] + rest;
      assert DecodeU32From(c, i, value) == DecodeU32From(c[1..], i + 1, value');
    } else {
      var c := b[..1] + rest;
      assert c == [b[0]] + rest && c[1..] == rest;
    }
  }

  /** The sections other than the memory, byte for byte. */
  function Others(sections: seq<Section>): seq<Section> {
    if sections == [] then []
    else if sections[0].id == 5 then Others(sections[1..])
    else [sections[0]] + Others(sections[1..])
  }

  /** The memory sections' limits. */
  function Memories(sections: seq<Section>): seq<Result<Limits, Error>> {
    if sections == [] then []
    else if sections[0].id == 5 then [ParseLimits(sections[0].payload)] + Memories(sections[1..])
    else Memories(sections[1..])
  }

  function Lowered(l: Result<Limits, Error>, maximum: nat): Result<Limits, Error> {
    match l
    case Ok(l) => Ok(Limits(l.initial, Min(maximum, l.maximum)))
    case Err(e) => Err(e)
  }

  lemma ReplacedSection(payload: seq<byte>, maximum: nat, rest: seq<byte>)
    requires Replaced(payload, maximum).Ok?
    ensures
      var p := Bounded(payload, maximum).value;
      var out := Replaced(payload, maximum).value;
      && ParseLimits(payload).Ok?
      && Next(out + rest) == Ok((Section(5, p, out), rest))
      && ParseLimits(p) == Lowered(ParseLimits(payload), maximum)
  {
    LimitsInRange(payload);
    var l := ParseLimits(payload).value;
    var l' := Limits(l.initial, Min(maximum, l.maximum));
    ParsePayload(l');
    U32RoundTrip(l'.initial, []);
    U32RoundTrip(l'.maximum, []);
    var p := Payload(l');
    hide ParseLimits, EncodeU32, Next;
    NextOf(5, p, rest);
  }

  lemma LimitsInRange(payload: seq<byte>)
    ensures var r := ParseLimits(payload); r.Ok? ==> r.value.initial <= r.value.maximum <= MAX_PAGES
  {
    hide DecodeU32;
  }

  /**
   * Bounding succeeds only on a module with exactly one memory section. The
   * result has the same other sections, byte for byte and in the same order,
   * and that memory with its initial size and the lower of both maxima.
   */
  lemma {:induction false} OnlyTheMemoryChanges(b: seq<byte>, maximum: nat, seen: bool)
    requires Rewrite(b, maximum, seen).Ok?
    ensures
      var before, after := Sections(b), Sections(Rewrite(b, maximum, seen).value);
      && before.Ok? && after.Ok?
      && Others(after.value) == Others(before.value)
      && |Memories(before.value)| == (if seen then 0 else 1)
      && |Memories(after.value)| == |Memories(before.value)|
      && (!seen ==> Memories(before.value)[0].Ok? && Memories(after.value)[0] == Lowered(Memories(before.value)[0], maximum))
    decreases |b|
  {
    if b != [] {
      var (s, rest) := Next(b).value;
      OnlyTheMemoryChanges(rest, maximum, seen || s.id == 5);
      var more := Rewrite(rest, maximum, seen || s.id == 5).value;
      if s.id == 5 {
        ReplacedSection(s.payload, maximum, more);
      } else {
        NextAgain(b, more);
      }
      hide Next, ParseLimits, Bounded;
      var t := if s.id == 5 then Section(5, Bounded(s.payload, maximum).value, Replaced(s.payload, maximum).value) else s;
      var out := t.bytes + more;
      assert Rewrite(b, maximum, seen).value == out;
      var moreSections := Sections(more).value;
      assert ([t] + moreSections)[1..] == moreSections;
      assert ([s] + Sections(rest).value)[1..] == Sections(rest).value;
    }
  }

  function Then(r: Result<seq<byte>, Error>, maximum: nat, seen: bool): Result<seq<byte>, Error> {
    if r.Err? then r else Rewrite(r.value, maximum, seen)
  }

  /** Bounding twice is bounding once by the lower maximum, and fails when that fails. */
  lemma {:induction false} BoundTwice(b: seq<byte>, first: nat, second: nat, seen: bool)
    ensures
      var twice := Then(Rewrite(b, first, seen), second, seen);
      var once := Rewrite(b, Min(first, second), seen);
      && (twice.Ok? <==> once.Ok?)
      && (once.Ok? ==> twice == once)
    decreases |b|
  {
    if b != [] && Next(b).Ok? {
      var (s, rest) := Next(b).value;
      var seen' := seen || s.id == 5;
      BoundTwice(rest, first, second, seen');
      var more := Rewrite(rest, first, seen');
      if s.id == 5 && !seen {
        BoundedTwice(s.payload, first, second);
        if Replaced(s.payload, first).Ok? && more.Ok? {
          ReplacedSection(s.payload, first, more.value);
          RewriteNext(Replaced(s.payload, first).value, more.value, second, seen);
        }
      } else if s.id != 5 && more.Ok? {
        NextAgain(b, more.value);
        RewriteNext(s.bytes, more.value, second, seen);
      }
      hide Next, Bounded, Replaced;
    }
  }

  lemma RewriteNext(bytes: seq<byte>, more: seq<byte>, maximum: nat, seen: bool)
    requires bytes != [] && Next(bytes + more).Ok? && Next(bytes + more).value.1 == more
    ensures
      var s := Next(bytes + more).value.0;
      Rewrite(bytes + more, maximum, seen)
      == if s.id == 5 && seen then Err(OneMemory)
         else
           var out := if s.id == 5 then Replaced(s.payload, maximum) else Ok(s.bytes);
           if out.Err? then out
           else
             match Rewrite(more, maximum, seen || s.id == 5)
             case Err(e) => Err(e)
             case Ok(rest) => Ok(out.value + rest)
  {
    hide Next, Replaced;
  }

  lemma BoundedTwice(payload: seq<byte>, first: nat, second: nat)
    ensures
      var once := Bounded(payload, Min(first, second));
      match Bounded(payload, first)
      case Err(_) => once.Err?
      case Ok(p) => (Bounded(p, second).Ok? <==> once.Ok?) && (once.Ok? ==> Bounded(p, second) == once)
  {
    LimitsInRange(payload);
    if ParseLimits(payload).Ok? {
      var l := ParseLimits(payload).value;
      if l.initial <= first {
        ParsePayload(Limits(l.initial, Min(first, l.maximum)));
      }
    }
    hide ParseLimits, Payload;
  }

  // --------------------------------------------------------- the whole module

  const HEADER: seq<byte> := [0, 97, 115, 109, 1, 0, 0, 0]

  function BoundModule(wasm: seq<byte>, maximum: nat): Result<seq<byte>, Error> {
    if |wasm| < 8 || wasm[..8] != HEADER then Err(InvalidHeader)
    else
      match Rewrite(wasm[8..], maximum, false)
      case Err(e) => Err(e)
      case Ok(rest) => Ok(HEADER + rest)
  }

  /** A memory section found on the way: where it was, and what replaces it. */
  datatype Memory = Memory(start: nat, end: nat, replacement: seq<byte>)

  lemma RewriteUnfold(b: seq<byte>, maximum: nat, seen: bool)
    requires b != []
    ensures Rewrite(b, maximum, seen)
         == match Next(b)
            case Err(e) => Err(e)
            case Ok((s, rest)) =>
              if s.id == 5 && seen then Err(OneMemory)
              else
                var out := if s.id == 5 then Replaced(s.payload, maximum) else Ok(s.bytes);
                if out.Err? then out
                else
                  match Rewrite(rest, maximum, seen || s.id == 5)
                  case Err(e) => Err(e)
                  case Ok(more) => Ok(out.value + more)
  {
    hide Next, Replaced;
  }

  ghost predicate Found(position: nat, memory: Option<Memory>) {
    memory.Some? ==> 8 <= memory.value.start <= memory.value.end <= position
  }

  /** The whole result, seen from a position between two sections. */
  function From(wasm: seq<byte>, maximum: nat, position: nat, memory: Option<Memory>): Result<seq<byte>, Error>
    requires 8 <= position <= |wasm| && Found(position, memory)
  {
    Resumed(wasm, position, memory, Rewrite(wasm[position..], maximum, memory.Some?))
  }

  /** One section: copied, or the memory, which is replaced. */
  method NextSection(reader: Reader, maximum: nat, memory: Option<Memory>) returns (r: Result<Option<Memory>, Error>)
    requires reader.Valid() && reader.end == |reader.bytes| && 8 <= reader.position < reader.end
    requires Found(reader.position, memory)
    modifies reader`position
    ensures reader.Valid()
    ensures r.Err? ==> From(reader.bytes, maximum, old(reader.position), memory) == Err(r.error)
    ensures r.Ok? ==>
              && reader.position > old(reader.position)
              && Found(reader.position, r.value)
              && From(reader.bytes, maximum, old(reader.position), memory) == From(reader.bytes, maximum, reader.position, r.value)
  {
    hide Rewrite, Next, Bounded, DecodeU32, EncodeU32;
    var wasm, start := reader.bytes, reader.position;
    RewriteUnfold(wasm[start..], maximum, memory.Some?);
    NextAt(wasm, start);
    var id := reader.Byte();
    assert reader.Left() == wasm[start + 1..];
    var size := reader.U32();
    if size.Err? {
      return Err(size.error);
    }
    assert reader.Left() == wasm[reader.position..];
    var end := reader.position + size.value;
    if end > |wasm| {
      return Err(TruncatedSection);
    }
    if id.value == 5 {
      if memory.Some? {
        return Err(OneMemory);
      }
      var section := new Reader(wasm, reader.position, end);
      assert section.Left() == wasm[reader.position..end];
      var payload := BoundedMemory(section, maximum);
      if payload.Err? {
        return Err(payload.error);
      }
      var replacement := [5] + EncodeU32(|payload.value|) + payload.value;
      r := Ok(Some(Memory(start, end, replacement)));
      ResumedRewrite(wasm, start, end, memory, replacement, r.value, Rewrite(wasm[end..], maximum, true));
    } else {
      r := Ok(memory);
      ResumedRewrite(wasm, start, end, memory, wasm[start..end], memory, Rewrite(wasm[end..], maximum, memory.Some?));
    }
    hide Resumed;
    reader.position := end;
  }

  /** The loop over the sections, from behind the header. */
  method FindMemory(reader: Reader, maximum: nat) returns (r: Result<Option<Memory>, Error>)
    requires reader.Valid() && reader.end == |reader.bytes| && reader.position == 8
    modifies reader`position
    ensures r.Err? ==> Rewrite(reader.bytes[8..], maximum, false) == Err(r.error)
    ensures r.Ok? ==> Found(|reader.bytes|, r.value)
                      && Rewrite(reader.bytes[8..], maximum, false) == From(reader.bytes, maximum, |reader.bytes|, r.value)
  {
    var memory: Option<Memory> := None;
    ResumedStart(reader.bytes, Rewrite(reader.bytes[8..], maximum, false));
    hide Rewrite, Resumed;
    while reader.position < reader.end
      invariant reader.Valid() && 8 <= reader.position && Found(reader.position, memory)
      invariant Rewrite(reader.bytes[8..], maximum, false) == From(reader.bytes, maximum, reader.position, memory)
      decreases reader.end - reader.position
    {
      var next := NextSection(reader, maximum, memory);
      if next.Err? {
        return Err(next.error);
      }
      memory := next.value;
    }
    r := Ok(memory);
  }

  lemma Assembled(wasm: seq<byte>, m: Memory)
    requires |wasm| >= 8 && 8 <= m.start <= m.end <= |wasm|
    ensures wasm[..m.start] + m.replacement + wasm[m.end..]
         == wasm[..8] + (wasm[8..m.start] + m.replacement + wasm[m.end..])
  {
  }

  /** `boundMemory` */
  method BoundMemory(wasm: seq<byte>, maximum: nat) returns (r: Result<seq<byte>, Error>)
    ensures r == BoundModule(wasm, maximum)
  {
    if |wasm| < 8 || wasm[..8] != HEADER {
      return Err(InvalidHeader);
    }
    hide Rewrite, Resumed;
    var reader := new Reader(wasm, 8, |wasm|);
    var memory := FindMemory(reader, maximum);
    if memory.Err? {
      return Err(memory.error);
    }
    ResumedEnd(wasm, memory.value, maximum);
    if memory.value.None? {
      return Err(OneMemory);
    }
    var m := memory.value.value;
    Assembled(wasm, m);
    r := Ok(wasm[..m.start] + m.replacement + wasm[m.end..]);
  }

  /** The whole result, given that of the sections from `position` on. */
  function Resumed(b: seq<byte>, position: nat, memory: Option<Memory>, rest: Result<seq<byte>, Error>): Result<seq<byte>, Error>
    requires 8 <= position <= |b|
    requires memory.Some? ==> 8 <= memory.value.start <= memory.value.end <= position
  {
    match rest
    case Err(e) => Err(e)
    case Ok(more) =>
      match memory
      case None => Ok(b[8..position] + more)
      case Some(m) => Ok(b[8..m.start] + m.replacement + b[m.end..position] + more)
  }

  /** One section later: copied, or replaced. */
  lemma ResumedNext(b: seq<byte>, start: nat, end: nat, memory: Option<Memory>, out: seq<byte>, more: seq<byte>)
    requires 8 <= start <= end <= |b|
    requires memory.Some? ==> 8 <= memory.value.start <= memory.value.end <= start
    ensures out == b[start..end] ==> Resumed(b, start, memory, Ok(out + more)) == Resumed(b, end, memory, Ok(more))
    ensures memory.None? ==> Resumed(b, start, None, Ok(out + more)) == Resumed(b, end, Some(Memory(start, end, out)), Ok(more))
  {
    if memory.Some? {
      var m := memory.value;
      assert out == b[start..end] ==>
          b[8..m.start] + m.replacement + b[m.end..start] + (out + more) == b[8..m.start] + m.replacement + b[m.end..end] + more;
    } else {
      assert out == b[start..end] ==> b[8..start] + (out + more) == b[8..end] + more;
      assert b[8..start] + (out + more) == b[8..start] + out + b[end..end] + more;
    }
  }

  lemma ResumedEnd(b: seq<byte>, memory: Option<Memory>, maximum: nat)
    requires |b| >= 8
    requires memory.Some? ==> 8 <= memory.value.start <= memory.value.end <= |b|
    ensures Resumed(b, |b|, memory, Rewrite(b[|b|..], maximum, memory.Some?))
         == if memory.None? then Err(OneMemory)
            else Ok(b[8..memory.value.start] + memory.value.replacement + b[memory.value.end..])
  {
    assert b[|b|..] == [];
    if memory.Some? {
      var m := memory.value;
      assert b[8..m.start] + m.replacement + b[m.end..|b|] + [] == b[8..m.start] + m.replacement + b[m.end..];
    }
  }

  /** What follows a section is what follows its replacement. */
  lemma ResumedRewrite(b: seq<byte>, start: nat, end: nat, memory: Option<Memory>, out: seq<byte>, memory': Option<Memory>,
                       rest: Result<seq<byte>, Error>)
    requires 8 <= start <= end <= |b| && Found(start, memory)
    requires || (out == b[start..end] && memory' == memory)
             || (memory.None? && memory' == Some(Memory(start, end, out)))
    ensures Resumed(b, start, memory, match rest case Err(e) => Err(e) case Ok(more) => Ok(out + more))
         == Resumed(b, end, memory', rest)
  {
    if rest.Ok? {
      ResumedNext(b, start, end, memory, out, rest.value);
    }
  }

  lemma ResumedStart(b: seq<byte>, rest: Result<seq<byte>, Error>)
    requires |b| >= 8
    ensures Resumed(b, 8, None, rest) == rest
  {
    assert rest.Ok? ==> b[8..8] + rest.value == rest.value;
  }
}
