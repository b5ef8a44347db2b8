/** The UTF-8 encoding of text (section 3 of RFC 3629). */
module Utf8 {
  import opened Bytes

  function EncodeChar(c: char): (r: seq<Byte>)
    ensures 1 <= |r| <= 4
  {
    var n := c as int;
    if n < 0x80 then [n]
    else if n < 0x800 then [0xC0 + n / 0x40, 0x80 + n % 0x40]
    else if n < 0x1_0000 then [0xE0 + n / 0x1000, 0x80 + n / 0x40 % 0x40, 0x80 + n % 0x40]
    else [0xF0 + n / 0x4_0000, 0x80 + n / 0x1000 % 0x40, 0x80 + n / 0x40 % 0x40, 0x80 + n % 0x40]
  }

  function Encode(s: string): seq<Byte> {
    if s == [] then [] else EncodeChar(s[0]) + Encode(s[1..])
  }

  /** The length of a Rust `str`. */
  function ByteLen(s: string): nat { |Encode(s)| }

  predicate IsContinuation(b: Byte) { 0x80 <= b < 0xC0 }

  predicate Continues(b: seq<Byte>, k: nat) {
    |b| >= k && forall i :: 1 <= i < k ==> IsContinuation(b[i])
  }

  /** The payload of a continuation byte. */
  function Low(b: Byte): int { b as int - 0x80 }

  function Code2(b: seq<Byte>): int
    requires |b| >= 2
  { (b[0] as int - 0xC0) * 0x40 + Low(b[1]) }

  function Code3(b: seq<Byte>): int
    requires |b| >= 3
  { (b[0] as int - 0xE0) * 0x1000 + Low(b[1]) * 0x40 + Low(b[2]) }

  function Code4(b: seq<Byte>): int
    requires |b| >= 4
  { (b[0] as int - 0xF0) * 0x4_0000 + Low(b[1]) * 0x1000 + Low(b[2]) * 0x40 + Low(b[3]) }

  /** The code point of the first sequence and its length; no overlong form, no surrogate. */
  function DecodeHead(b: seq<Byte>): (r: Option<(char, nat)>)
    ensures r.Some? ==> 1 <= r.value.1 <= |b|
  {
    if b == [] then None
    else if b[0] < 0x80 then Some((b[0] as char, 1))
    else if 0xC2 <= b[0] < 0xE0 && Continues(b, 2) then Some((Code2(b) as char, 2))
    else if 0xE0 <= b[0] < 0xF0 && Continues(b, 3) then
      if Code3(b) < 0x800 || 0xD800 <= Code3(b) < 0xE000 then None else Some((Code3(b) as char, 3))
    else if 0xF0 <= b[0] < 0xF5 && Continues(b, 4) then
      if Code4(b) < 0x1_0000 || Code4(b) >= 0x11_0000 then None else Some((Code4(b) as char, 4))
    else None
  }

  /** Strict decoding: the whole input or nothing. */
  function Decode(b: seq<Byte>): Option<string> {
    if b == [] then Some("")
    else
      var head := DecodeHead(b);
      if head.None? then None
      else
        var rest := Decode(b[head.value.1..]);
        if rest.None? then None else Some([head.value.0] + rest.value)
  }

  lemma Digits64(n: nat)
    ensures n == n / 0x40 * 0x40 + n % 0x40
    ensures n / 0x40 == n / 0x1000 * 0x40 + n / 0x40 % 0x40
    ensures n / 0x1000 == n / 0x4_0000 * 0x40 + n / 0x1000 % 0x40
  {
  }

  lemma Decode4(c: char, rest: seq<Byte>)
    requires c as int >= 0x1_0000
    ensures DecodeHead(EncodeChar(c) + rest) == Some((c, 4))
  {
    Digits64(c as int);
    var b := EncodeChar(c) + rest;
    assert Continues(b, 4) && Code4(b) == c as int;
  }

  lemma DecodeHeadOfEncoded(c: char, rest: seq<Byte>)
    ensures DecodeHead(EncodeChar(c) + rest) == Some((c, |EncodeChar(c)|))
  {
    var n := c as int;
    var b := EncodeChar(c) + rest;
    Digits64(n);
    if n < 0x80 {
    } else if n < 0x800 {
      assert Continues(b, 2) && Code2(b) == n;
    } else if n < 0x1_0000 {
      assert Continues(b, 3) && Code3(b) == n;
    } else {
      Decode4(c, rest);
    }
  }

  lemma Encode3(b: seq<Byte>)
    requires |b| >= 3 && 0xE0 <= b[0] < 0xF0 && IsContinuation(b[1]) && IsContinuation(b[2])
    requires 0x800 <= Code3(b) && !(0xD800 <= Code3(b) < 0xE000)
    ensures EncodeChar(Code3(b) as char) == b[..3]
  {
    var n := Code3(b);
    assert n / 0x1000 == b[0] as int - 0xE0;
    assert n / 0x40 % 0x40 == Low(b[1]) && n % 0x40 == Low(b[2]);
  }

  lemma Radix64(hi: int, lo: int)
    requires 0 <= lo < 0x40
    ensures (hi * 0x40 + lo) / 0x40 == hi && (hi * 0x40 + lo) % 0x40 == lo
  {
  }

  lemma Encode4(b: seq<Byte>)
    requires |b| >= 4 && 0xF0 <= b[0] < 0xF5
    requires IsContinuation(b[1]) && IsContinuation(b[2]) && IsContinuation(b[3])
    requires 0x1_0000 <= Code4(b) < 0x11_0000
    ensures EncodeChar(Code4(b) as char) == b[..4]
  {
    var n, hi, a, c, d := Code4(b), b[0] as int - 0xF0, Low(b[1]), Low(b[2]), Low(b[3]);
    Radix64(hi * 0x1000 + a * 0x40 + c, d);
    Radix64(hi * 0x40 + a, c);
    Radix64(hi, a);
    assert n / 0x40 / 0x40 == n / 0x1000 && n / 0x1000 / 0x40 == n / 0x4_0000;
  }

  lemma EncodedHeadOfDecoded(b: seq<Byte>)
    requires DecodeHead(b).Some?
    ensures EncodeChar(DecodeHead(b).value.0) == b[..DecodeHead(b).value.1]
  {
    if b[0] < 0x80 {
    } else if b[0] < 0xE0 {
      assert Code2(b) / 0x40 == b[0] as int - 0xC0 && Code2(b) % 0x40 == Low(b[1]);
    } else if b[0] < 0xF0 {
      Encode3(b);
    } else {
      Encode4(b);
    }
  }

  /** The decoder inverts the encoder and accepts nothing else. */
  lemma {:induction false} DecodeInvertsEncode(b: seq<Byte>, s: string)
    ensures Decode(b) == Some(s) <==> Encode(s) == b
    decreases |b|
  {
    if Encode(s) == b && s != [] {
      var e := EncodeChar(s[0]);
      DecodeHeadOfEncoded(s[0], Encode(s[1..]));
      assert b[|e|..] == Encode(s[1..]);
      DecodeInvertsEncode(b[|e|..], s[1..]);
      assert s == [s[0]] + s[1..];
    }
    if Decode(b) == Some(s) && b != [] {
      EncodedHeadOfDecoded(b);
      var k := DecodeHead(b).value.1;
      assert b == b[..k] + b[k..];
      assert s == [DecodeHead(b).value.0] + Decode(b[k..]).value;
      assert s[1..] == Decode(b[k..]).value;
      DecodeInvertsEncode(b[k..], s[1..]);
    }
  }

  lemma {:induction false} EncodeConcat(a: string, b: string)
    ensures Encode(a + b) == Encode(a) + Encode(b)
  {
    if a == [] {
      assert a + b == b;
    } else {
      assert (a + b)[1..] == a[1..] + b;
      EncodeConcat(a[1..], b);
    }
  }

  lemma ByteLenConcat(a: string, b: string)
    ensures ByteLen(a + b) == ByteLen(a) + ByteLen(b)
  {
    EncodeConcat(a, b);
  }

  lemma {:induction false} AsciiLength(s: string)
    requires forall k :: 0 <= k < |s| ==> s[k] as int < 0x80
    ensures ByteLen(s) == |s|
  {
    if s != [] { AsciiLength(s[1..]); }
  }

  // ---------------------------------------------------------------- char boundaries

  /** The test of `str::is_char_boundary`: the ends, and every byte that starts a character. */
  predicate IsCharBoundary(b: seq<Byte>, i: nat) {
    i == 0 || i == |b| || (i < |b| && !IsContinuation(b[i]))
  }

  /** The prefix of `s` that takes exactly `end` bytes, as `s.get(..end)`. */
  function SliceTo(s: string, end: nat): (r: Option<string>)
    ensures r.Some? ==> r.value <= s && |Encode(r.value)| == end
  {
    if end == 0 then Some("")
    else if s == [] || |EncodeChar(s[0])| > end then None
    else
      var rest := SliceTo(s[1..], end - |EncodeChar(s[0])|);
      if rest.None? then None
      else
        assert ([s[0]] + rest.value)[1..] == rest.value;
        Some([s[0]] + rest.value)
  }

  /** A byte offset is a boundary exactly when some prefix of the text ends there. */
  lemma {:induction false} BoundaryIffSlice(s: string, i: nat)
    requires i <= |Encode(s)|
    ensures IsCharBoundary(Encode(s), i) <==> SliceTo(s, i).Some?
  {
    if i != 0 && s != [] {
      var e := EncodeChar(s[0]);
      var b := Encode(s);
      if i < |e| {
        assert b[i] == e[i];
      } else {
        var rest := Encode(s[1..]);
        BoundaryIffSlice(s[1..], i - |e|);
        if i < |b| {
          assert b[i] == rest[i - |e|];
          if i == |e| {
            FirstByteStarts(s[1..]);
          }
        }
      }
    }
  }

  lemma FirstByteStarts(s: string)
    requires s != []
    ensures Encode(s) != [] && !IsContinuation(Encode(s)[0])
  {
    assert Encode(s)[0] == EncodeChar(s[0])[0];
  }
}
