/** UTF-8, section 3 of RFC 3629: the encoding whose size the limits bound. */
module Utf8 {
  import opened Prelude

  /** The bits above the n lowest groups of six. */
  function High(code: nat, n: nat): nat {
    if n == 0 then code else High(code / 0x40, n - 1)
  }

  /** The n lowest groups, a byte each. */
  function Tail(code: nat, n: nat): (t: seq<nat>)
    ensures |t| == n
    decreases n
  {
    if n == 0 then [] else Tail(code / 0x40, n - 1) + [0x80 + code % 0x40]
  }

  /** One code point: the lead byte has the highest bits and tells how many bytes follow. */
  function Encoded(code: nat): seq<nat> {
    if code < 0x80 then [code]
    else if code < 0x800 then [0xC0 + High(code, 1)] + Tail(code, 1)
    else if code < 0x10000 then [0xE0 + High(code, 2)] + Tail(code, 2)
    else [0xF0 + High(code, 3)] + Tail(code, 3)
  }

  function Lead(b: nat): Option<(nat, nat)> {
    if b < 0x80 then Some((b, 0))
    else if 0xC0 <= b < 0xE0 then Some((b - 0xC0, 1))
    else if 0xE0 <= b < 0xF0 then Some((b - 0xE0, 2))
    else if 0xF0 <= b < 0xF8 then Some((b - 0xF0, 3))
    else None
  }

  function Follow(high: nat, n: nat, bytes: seq<nat>): (r: Option<(nat, seq<nat>)>)
    ensures r.Some? ==> |r.value.1| <= |bytes|
    decreases n
  {
    if n == 0 then Some((high, bytes))
    else if bytes == [] || !(0x80 <= bytes[0] < 0xC0) then None
    else Follow(high * 0x40 + (bytes[0] - 0x80), n - 1, bytes[1..])
  }

  /** The first code point, and what is left. */
  function First(bytes: seq<nat>): (r: Option<(nat, seq<nat>)>)
    ensures r.Some? ==> |r.value.1| < |bytes|
  {
    if bytes == [] then None
    else
      match Lead(bytes[0])
      case None => None
      case Some((high, n)) => Follow(high, n, bytes[1..])
  }

  lemma {:induction false} FollowOne(high: nat, n: nat, bytes: seq<nat>, code: nat, low: nat, rest: seq<nat>)
    requires Follow(high, n, bytes) == Some((code, [0x80 + low] + rest)) && low < 0x40
    ensures Follow(high, n + 1, bytes) == Some((code * 0x40 + low, rest))
    decreases n
  {
    if n == 0 {
      assert bytes[1..] == rest;
    } else {
      FollowOne(high * 0x40 + (bytes[0] - 0x80), n - 1, bytes[1..], code, low, rest);
    }
  }

  lemma {:induction false} FollowTail(code: nat, n: nat, rest: seq<nat>)
    ensures Follow(High(code, n), n, Tail(code, n) + rest) == Some((code, rest))
    decreases n
  {
    if n == 0 {
      assert [] + rest == rest;
    } else {
      var low := code % 0x40;
      FollowTail(code / 0x40, n - 1, [0x80 + low] + rest);
      assert Tail(code, n) + rest == Tail(code / 0x40, n - 1) + ([0x80 + low] + rest);
      FollowOne(High(code, n), n - 1, Tail(code, n) + rest, code / 0x40, low, rest);
    }
  }

  lemma LeadEncoded(code: nat)
    requires code < 0x110000
    ensures var n := |Encoded(code)| - 1;
            && Lead(Encoded(code)[0]) == Some((High(code, n), n)) && Encoded(code)[1..] == Tail(code, n)
  {
    var a, b, c := code, code / 0x40, code / 0x40 / 0x40;
    assert High(a, 1) == b && High(b, 1) == c && High(c, 1) == c / 0x40;
    assert High(a, 2) == c && High(b, 2) == c / 0x40;
    assert High(a, 3) == c / 0x40;
  }

  /** Every code point reads back, whatever follows. */
  lemma FirstEncoded(code: nat, rest: seq<nat>)
    requires code < 0x110000
    ensures First(Encoded(code) + rest) == Some((code, rest))
  {
    LeadEncoded(code);
    var n := |Encoded(code)| - 1;
    FollowTail(code, n, rest);
    hide High, Tail, Follow, Lead, Encoded;
    assert (Encoded(code) + rest)[1..] == Tail(code, n) + rest;
  }

  // -------------------------------------------------------------------- texts

  function Codes(s: string): seq<nat> {
    if s == "" then [] else Codes(s[..|s| - 1]) + [s[|s| - 1] as int]
  }

  function Encoding(codes: seq<nat>): seq<nat> {
    if codes == [] then [] else Encoded(codes[0]) + Encoding(codes[1..])
  }

  function Decoding(bytes: seq<nat>): Option<seq<nat>>
    decreases |bytes|
  {
    if bytes == [] then Some([])
    else
      var first := First(bytes);
      if first.None? then None
      else
        var rest := Decoding(first.value.1);
        if rest.None? then None else Some([first.value.0] + rest.value)
  }

  /** The encoding determines the text. */
  lemma {:induction false} EncodingReads(codes: seq<nat>)
    requires forall k | 0 <= k < |codes| :: codes[k] < 0x110000
    ensures Decoding(Encoding(codes)) == Some(codes)
  {
    if codes != [] {
      EncodingReads(codes[1..]);
      FirstEncoded(codes[0], Encoding(codes[1..]));
      assert [codes[0]] + codes[1..] == codes;
    }
  }

  lemma {:induction false} EncodingSnoc(codes: seq<nat>, code: nat)
    ensures Encoding(codes + [code]) == Encoding(codes) + Encoded(code)
  {
    hide Encoded;
    if codes == [] {
      assert [code][1..] == [] && Encoding([]) == [];
    } else {
      assert (codes + [code])[1..] == codes[1..] + [code];
      EncodingSnoc(codes[1..], code);
    }
  }
}
