/** The crash blob: a writer that fills a buffer in place and a parser, which undo each other. */
module CrashBlob {
  import opened Bytes
  import Utf8

  type U16 = n: int | 0 <= n < 0x1_0000
  type U32 = n: int | 0 <= n < 0x1_0000_0000
  type U64 = n: int | 0 <= n < 0x1_0000_0000_0000_0000
  type I32 = n: int | -0x8000_0000 <= n < 0x8000_0000

  const MAX_FRAMES: nat := 64
  const VERSION: Byte := 1
  const VERSION_STRING_LEN: nat := 32
  const HEADER_SIZE: nat := 64
  const MAX_FILE_SIZE: nat := 576

  function Magic(): seq<Byte> { [71, 67, 82, 88] }

  // ---------------------------------------------------------------- little-endian integers

  function Pow256(k: nat): nat { if k == 0 then 1 else 256 * Pow256(k - 1) }

  function LE(n: nat, k: nat): (b: seq<Byte>)
    ensures |b| == k
  {
    if k == 0 then [] else [n % 256] + LE(n / 256, k - 1)
  }

  function FromLE(b: seq<Byte>): (n: nat)
    ensures n < Pow256(|b|)
  {
    if b == [] then 0 else b[0] + 256 * FromLE(b[1..])
  }

  lemma {:induction false} FromLEOfLE(n: nat, k: nat)
    requires n < Pow256(k)
    ensures FromLE(LE(n, k)) == n
  {
    if k > 0 {
      FromLEOfLE(n / 256, k - 1);
      assert LE(n, k)[1..] == LE(n / 256, k - 1);
    }
  }

  lemma {:induction false} LEOfFromLE(b: seq<Byte>)
    ensures LE(FromLE(b), |b|) == b
  {
    if b != [] { LEOfFromLE(b[1..]); }
  }

  lemma Widths()
    ensures Pow256(2) == 0x1_0000 && Pow256(4) == 0x1_0000_0000 && Pow256(8) == 0x1_0000_0000_0000_0000
  {
    assert Pow256(1) == 256 && Pow256(3) == 0x100_0000;
    assert Pow256(5) == 0x100_0000_0000 && Pow256(6) == 0x1_0000_0000_0000 && Pow256(7) == 0x100_0000_0000_0000;
  }

  function U16Of(b: seq<Byte>): U16
    requires |b| == 2
  { Widths(); FromLE(b) }

  function U32Of(b: seq<Byte>): U32
    requires |b| == 4
  { Widths(); FromLE(b) }

  function U64Of(b: seq<Byte>): U64
    requires |b| == 8
  { Widths(); FromLE(b) }

  /** Two's complement. */
  function Unsigned(n: I32): U32 { if n < 0 then n + 0x1_0000_0000 else n }

  function Signed(n: U32): I32 { if n >= 0x8000_0000 then n - 0x1_0000_0000 else n }

  lemma WordsInvert(a: U16, b: U32, c: U64)
    ensures U16Of(LE(a, 2)) == a && U32Of(LE(b, 4)) == b && U64Of(LE(c, 8)) == c
  {
    Widths();
    FromLEOfLE(a, 2);
    FromLEOfLE(b, 4);
    FromLEOfLE(c, 8);
  }

  // ---------------------------------------------------------------- writing

  datatype Fields = Fields(
    signal: Byte, siCode: I32, siAddr: U64, pid: U32, timestamp: U64, nFrames: U16, version: seq<Byte>)

  function Zeros(k: nat): (b: seq<Byte>)
    ensures |b| == k && forall i :: 0 <= i < k ==> b[i] == 0
  {
    if k == 0 then [] else [0] + Zeros(k - 1)
  }

  /** The version field: cut or padded with zeros to its fixed length. */
  function Padded(v: seq<Byte>): (b: seq<Byte>)
    ensures |b| == VERSION_STRING_LEN
  {
    var n := Min(|v|, VERSION_STRING_LEN);
    v[..n] + Zeros(VERSION_STRING_LEN - n)
  }

  function Header(f: Fields): (b: seq<Byte>)
    ensures |b| == HEADER_SIZE
  {
    Magic() + [VERSION, f.signal] + LE(Unsigned(f.siCode), 4) + LE(f.siAddr, 8) + LE(f.pid, 4) + LE(f.timestamp, 8)
    + LE(f.nFrames, 2) + Padded(f.version)
  }

  /** Writing into a buffer, or nothing when there is no room. */
  function Put(s: seq<Byte>, at: nat, b: seq<Byte>): (r: seq<Byte>)
    ensures |r| == |s|
  {
    if at + |b| <= |s| then s[..at] + b + s[at + |b|..] else s
  }

  /** A header written field by field; in a short buffer the leading fields that fit. */
  function HeaderPut(s: seq<Byte>, f: Fields): seq<Byte> {
    var numbers := Put(Put(Put(Put(s, 0, Magic()), 4, [VERSION]), 5, [f.signal]), 6, LE(Unsigned(f.siCode), 4));
    var times := Put(Put(Put(numbers, 10, LE(f.siAddr, 8)), 18, LE(f.pid, 4)), 22, LE(f.timestamp, 8));
    Put(Put(times, 30, LE(f.nFrames, 2)), 32, Padded(f.version))
  }

  method CopyAt(buf: array<Byte>, at: nat, b: seq<Byte>) returns (ok: bool)
    modifies buf
    ensures buf[..] == Put(old(buf[..]), at, b) && ok == (at + |b| <= buf.Length)
  {
    if at + |b| > buf.Length { return false; }
    for i := 0 to |b|
      invariant forall k :: 0 <= k < buf.Length ==> buf[k] == if at <= k < at + i then b[k - at] else old(buf[k])
    {
      buf[at + i] := b[i];
    }
    ok := true;
  }

  lemma PadInPlace(s: seq<Byte>, v: seq<Byte>)
    requires |s| >= HEADER_SIZE
    ensures Put(Put(s, 32, Zeros(VERSION_STRING_LEN)), 32, v[..Min(|v|, VERSION_STRING_LEN)]) == Put(s, 32, Padded(v))
  {
    var n := Min(|v|, VERSION_STRING_LEN);
    var a, b := Put(Put(s, 32, Zeros(VERSION_STRING_LEN)), 32, v[..n]), Put(s, 32, Padded(v));
    assert forall i :: 0 <= i < |s| ==> a[i] == b[i];
  }

  /** Zeros the version field and copies what fits of the version. */
  method WriteVersion(buf: array<Byte>, v: seq<Byte>) returns (ok: bool)
    modifies buf
    ensures buf[..] == Put(old(buf[..]), 32, Padded(v)) && ok == (HEADER_SIZE <= buf.Length)
  {
    ok := CopyAt(buf, 32, Zeros(VERSION_STRING_LEN));
    if !ok { return; }
    var copyLen := Min(|v|, VERSION_STRING_LEN);
    var _ := CopyAt(buf, 32, v[..copyLen]);
    PadInPlace(old(buf[..]), v);
  }

  method WriteNumbers(buf: array<Byte>, f: Fields) returns (ok: bool)
    modifies buf
    ensures ok == (22 <= buf.Length)
    ensures buf[..] == Put(Put(Put(Put(Put(Put(old(buf[..]), 0, Magic()), 4, [VERSION]), 5, [f.signal]),
      6, LE(Unsigned(f.siCode), 4)), 10, LE(f.siAddr, 8)), 18, LE(f.pid, 4))
  {
    ok := CopyAt(buf, 0, Magic());
    if !ok { return; }
    ok := CopyAt(buf, 4, [VERSION]);
    if !ok { return; }
    ok := CopyAt(buf, 5, [f.signal]);
    if !ok { return; }
    ok := CopyAt(buf, 6, LE(Unsigned(f.siCode), 4));
    if !ok { return; }
    ok := CopyAt(buf, 10, LE(f.siAddr, 8));
    if !ok { return; }
    ok := CopyAt(buf, 18, LE(f.pid, 4));
  }

  method WriteHeader(buf: array<Byte>, f: Fields) returns (n: nat)
    modifies buf
    ensures buf[..] == HeaderPut(old(buf[..]), f) && n == if buf.Length >= HEADER_SIZE then HEADER_SIZE else 0
  {
    var ok := WriteNumbers(buf, f);
    if !ok { return 0; }
    ok := CopyAt(buf, 22, LE(f.timestamp, 8));
    if !ok { return 0; }
    ok := CopyAt(buf, 30, LE(f.nFrames, 2));
    if !ok { return 0; }
    ok := WriteVersion(buf, f.version);
    if !ok { return 0; }
    n := 32 + VERSION_STRING_LEN;
  }

  method WriteFrame(buf: array<Byte>, offset: nat, addr: U64) returns (n: nat)
    modifies buf
    ensures buf[..] == Put(old(buf[..]), offset, LE(addr, 8)) && n == if offset + 8 <= buf.Length then offset + 8 else offset
  {
    var ok := CopyAt(buf, offset, LE(addr, 8));
    n := if ok then offset + 8 else offset;
  }

  lemma HeaderIsPut(s: seq<Byte>, f: Fields)
    requires |s| >= HEADER_SIZE
    ensures HeaderPut(s, f) == Header(f) + s[HEADER_SIZE..]
  {
    PutNext(s, [], Magic(), s);
    var h1 := Magic();
    var s1 := Put(s, 0, h1);
    PutNext(s, h1, [VERSION], s1);
    var h2, s2 := h1 + [VERSION], Put(s1, 4, [VERSION]);
    PutNext(s, h2, [f.signal], s2);
    var h3, s3 := h2 + [f.signal], Put(s2, 5, [f.signal]);
    PutNext(s, h3, LE(Unsigned(f.siCode), 4), s3);
    var h4, s4 := h3 + LE(Unsigned(f.siCode), 4), Put(s3, 6, LE(Unsigned(f.siCode), 4));
    PutNext(s, h4, LE(f.siAddr, 8), s4);
    var h5, s5 := h4 + LE(f.siAddr, 8), Put(s4, 10, LE(f.siAddr, 8));
    PutNext(s, h5, LE(f.pid, 4), s5);
    var h6, s6 := h5 + LE(f.pid, 4), Put(s5, 18, LE(f.pid, 4));
    PutNext(s, h6, LE(f.timestamp, 8), s6);
    var h7, s7 := h6 + LE(f.timestamp, 8), Put(s6, 22, LE(f.timestamp, 8));
    PutNext(s, h7, LE(f.nFrames, 2), s7);
    var h8, s8 := h7 + LE(f.nFrames, 2), Put(s7, 30, LE(f.nFrames, 2));
    PutNext(s, h8, Padded(f.version), s8);
    assert h2 + [f.signal] == Magic() + [VERSION, f.signal];
  }

  /** Writing behind what has been written extends it. */
  lemma PutNext(s: seq<Byte>, head: seq<Byte>, b: seq<Byte>, t: seq<Byte>)
    requires |head| + |b| <= |s| && t == head + s[|head|..]
    ensures Put(t, |head|, b) == head + b + s[|head| + |b|..]
  {
  }

  function FrameBytes(frames: seq<U64>): (b: seq<Byte>)
    ensures |b| == 8 * |frames|
  {
    if frames == [] then [] else FrameBytes(frames[..|frames| - 1]) + LE(frames[|frames| - 1], 8)
  }

  function BlobBytes(f: Fields, frames: seq<U64>): seq<Byte> { Header(f) + FrameBytes(frames) }

  lemma NoFrames(f: Fields, frames: seq<U64>)
    requires frames == []
    ensures BlobBytes(f, frames) == Header(f)
  {
  }

  lemma FrameIsPut(s: seq<Byte>, t: seq<Byte>, f: Fields, frames: seq<U64>, i: nat)
    requires i < |frames| && HEADER_SIZE + 8 * (i + 1) <= |s|
    requires t == BlobBytes(f, frames[..i]) + s[HEADER_SIZE + 8 * i..]
    ensures Put(t, HEADER_SIZE + 8 * i, LE(frames[i], 8)) == BlobBytes(f, frames[..i + 1]) + s[HEADER_SIZE + 8 * (i + 1)..]
  {
    var head := BlobBytes(f, frames[..i]);
    PutNext(s, head, LE(frames[i], 8), t);
    Regroup(Header(f), FrameBytes(frames[..i]), LE(frames[i], 8));
    FrameBytesSnoc(frames[..i], frames[i]);
    assert frames[..i + 1] == frames[..i] + [frames[i]];
  }

  /** The first `i` frames written one behind the other. */
  function FramesPut(s: seq<Byte>, frames: seq<U64>, i: nat): (r: seq<Byte>)
    requires i <= |frames|
    ensures |r| == |s|
  {
    if i == 0 then s else Put(FramesPut(s, frames, i - 1), HEADER_SIZE + 8 * (i - 1), LE(frames[i - 1], 8))
  }

  lemma {:induction false} FramesFollowHeader(s: seq<Byte>, t: seq<Byte>, f: Fields, frames: seq<U64>, i: nat)
    requires i <= |frames| && HEADER_SIZE + 8 * i <= |s| && t == Header(f) + s[HEADER_SIZE..]
    ensures FramesPut(t, frames, i) == BlobBytes(f, frames[..i]) + s[HEADER_SIZE + 8 * i..]
  {
    if i == 0 {
      NoFrames(f, frames[..0]);
    } else {
      FramesFollowHeader(s, t, f, frames, i - 1);
      FrameIsPut(s, FramesPut(t, frames, i - 1), f, frames, i - 1);
    }
  }

  method WriteFrames(buf: array<Byte>, frames: seq<U64>) returns (offset: nat)
    requires buf.Length >= HEADER_SIZE + 8 * |frames|
    modifies buf
    ensures offset == HEADER_SIZE + 8 * |frames| && buf[..] == FramesPut(old(buf[..]), frames, |frames|)
  {
    offset := HEADER_SIZE;
    for i := 0 to |frames|
      invariant offset == HEADER_SIZE + 8 * i
      invariant buf[..] == FramesPut(old(buf[..]), frames, i)
    {
      offset := WriteFrame(buf, offset, frames[i]);
    }
  }

  method WriteWholeHeader(buf: array<Byte>, f: Fields)
    requires buf.Length >= HEADER_SIZE
    modifies buf
    ensures buf[..] == Header(f) + old(buf[..])[HEADER_SIZE..]
  {
    var _ := WriteHeader(buf, f);
    HeaderIsPut(old(buf[..]), f);
  }

  lemma AllFrames(s: seq<Byte>, t: seq<Byte>, f: Fields, frames: seq<U64>)
    requires HEADER_SIZE + 8 * |frames| <= |s| && t == Header(f) + s[HEADER_SIZE..]
    ensures FramesPut(t, frames, |frames|) == BlobBytes(f, frames) + s[HEADER_SIZE + 8 * |frames|..]
  {
    FramesFollowHeader(s, t, f, frames, |frames|);
    assert frames[..|frames|] == frames;
  }

  /** The whole blob, as the crash handler writes it into its buffer. */
  method WriteBlob(buf: array<Byte>, f: Fields, frames: seq<U64>) returns (offset: nat)
    requires buf.Length >= MAX_FILE_SIZE && |frames| <= MAX_FRAMES
    modifies buf
    ensures offset == HEADER_SIZE + 8 * |frames|
    ensures buf[..] == BlobBytes(f, frames) + old(buf[..])[offset..]
  {
    WriteWholeHeader(buf, f);
    AllFrames(old(buf[..]), buf[..], f, frames);
    offset := WriteFrames(buf, frames);
  }

  // ---------------------------------------------------------------- parsing

  datatype Blob = Blob(
    signal: Byte, siCode: I32, siAddr: U64, pid: U32, timestamp: U64, frames: seq<U64>, appVersion: string)

  function TrimNul(s: string): (r: string)
    ensures r <= s && (r == "" || r[|r| - 1] != '\0')
    ensures forall i :: |r| <= i < |s| ==> s[i] == '\0'
  {
    if s != [] && s[|s| - 1] == '\0' then TrimNul(s[..|s| - 1]) else s
  }

  /** The version text: empty when the field is not UTF-8. */
  function VersionText(b: seq<Byte>): string {
    var s := Utf8.Decode(b);
    if s.None? then "" else TrimNul(s.value)
  }

  function FrameAt(data: seq<Byte>, i: nat): U64
    requires HEADER_SIZE + 8 * (i + 1) <= |data|
  {
    var offset := HEADER_SIZE + 8 * i;
    U64Of(data[offset..offset + 8])
  }

  function FramesOf(data: seq<Byte>, n: nat): (r: seq<U64>)
    requires HEADER_SIZE + 8 * n <= |data|
    ensures |r| == n
  {
    if n == 0 then [] else FramesOf(data, n - 1) + [FrameAt(data, n - 1)]
  }

  function Parsed(data: seq<Byte>): Option<Blob> {
    if |data| < HEADER_SIZE || data[..4] != Magic() || data[4] != VERSION then None
    else
      var n: nat := U16Of(data[30..32]);
      if n > MAX_FRAMES || |data| < HEADER_SIZE + 8 * n then None
      else Some(Blob(data[5], Signed(U32Of(data[6..10])), U64Of(data[10..18]), U32Of(data[18..22]), U64Of(data[22..30]),
                     FramesOf(data, n), VersionText(data[32..64])))
  }

  method Parse(data: seq<Byte>) returns (r: Option<Blob>)
    ensures r == Parsed(data)
  {
    if |data| < HEADER_SIZE { return None; }
    if data[..4] != Magic() { return None; }
    if data[4] != VERSION { return None; }
    var signal := data[5];
    var siCode := Signed(U32Of(data[6..10]));
    var siAddr, pid, timestamp := U64Of(data[10..18]), U32Of(data[18..22]), U64Of(data[22..30]);
    var nFrames: nat := U16Of(data[30..32]);
    var appVersion := VersionText(data[32..64]);
    if nFrames > MAX_FRAMES { return None; }
    if |data| < HEADER_SIZE + nFrames * 8 { return None; }
    var frames: seq<U64> := [];
    for i := 0 to nFrames
      invariant frames == FramesOf(data, i)
    {
      var offset := HEADER_SIZE + i * 8;
      frames := frames + [U64Of(data[offset..offset + 8])];
    }
    return Some(Blob(signal, siCode, siAddr, pid, timestamp, frames, appVersion));
  }

  // ---------------------------------------------------------------- parsing what was written

  lemma HeaderSlices(f: Fields, rest: seq<Byte>)
    ensures var data := Header(f) + rest;
      && data[..4] == Magic() && data[4] == VERSION && data[5] == f.signal
      && data[6..10] == LE(Unsigned(f.siCode), 4) && data[10..18] == LE(f.siAddr, 8) && data[18..22] == LE(f.pid, 4)
      && data[22..30] == LE(f.timestamp, 8) && data[30..32] == LE(f.nFrames, 2) && data[32..64] == Padded(f.version)
      && data[64..] == rest
  {
  }

  lemma NextFrame(data: seq<Byte>, n: nat)
    requires 0 < n && HEADER_SIZE + 8 * n <= |data|
    ensures var lo := HEADER_SIZE + 8 * (n - 1); FramesOf(data, n) == FramesOf(data, n - 1) + [U64Of(data[lo..lo + 8])]
  {
  }

  lemma LastFrameApart(head: seq<Byte>, before: seq<Byte>, last: seq<Byte>, tail: seq<Byte>)
    ensures head + (before + last) + tail == head + before + (last + tail)
  {
  }

  lemma {:induction false} FramesOfWritten(head: seq<Byte>, frames: seq<U64>, tail: seq<Byte>)
    requires |head| == HEADER_SIZE
    ensures FramesOf(head + FrameBytes(frames) + tail, |frames|) == frames
  {
    if frames != [] {
      var n := |frames| - 1;
      var before, last := FrameBytes(frames[..n]), LE(frames[n], 8);
      FramesOfWritten(head, frames[..n], last + tail);
      LastFrameApart(head, before, last, tail);
      NextFrame(head + before + (last + tail), |frames|);
      WordsInvert(0, 0, frames[n]);
      FrameSlice(head + before, last, tail);
    }
  }

  lemma FrameSlice(before: seq<Byte>, last: seq<Byte>, tail: seq<Byte>)
    ensures (before + (last + tail))[|before|..|before| + |last|] == last
  {
  }

  lemma ParsedNumbers(data: seq<Byte>, f: Fields)
    requires |data| >= HEADER_SIZE && data[6..10] == LE(Unsigned(f.siCode), 4) && data[10..18] == LE(f.siAddr, 8)
    requires data[18..22] == LE(f.pid, 4) && data[22..30] == LE(f.timestamp, 8) && data[30..32] == LE(f.nFrames, 2)
    ensures Signed(U32Of(data[6..10])) == f.siCode && U64Of(data[10..18]) == f.siAddr && U32Of(data[18..22]) == f.pid
    ensures U64Of(data[22..30]) == f.timestamp && U16Of(data[30..32]) == f.nFrames
  {
    WordsInvert(f.nFrames, Unsigned(f.siCode), f.siAddr);
    WordsInvert(0, f.pid, f.timestamp);
  }

  /** A written blob is parsed exactly when it has at most 64 frames, and then every number and
      frame comes back, whatever follows it. */
  lemma ParseOfWritten(f: Fields, frames: seq<U64>, tail: seq<Byte>)
    requires f.nFrames == |frames|
    ensures Parsed(BlobBytes(f, frames) + tail) ==
      if |frames| > MAX_FRAMES then None
      else Some(Blob(f.signal, f.siCode, f.siAddr, f.pid, f.timestamp, frames, VersionText(Padded(f.version))))
  {
    ParseOfParts(f, frames, FrameBytes(frames) + tail, Header(f) + FrameBytes(frames) + tail);
    if |frames| <= MAX_FRAMES { FramesOfWritten(Header(f), frames, tail); }
  }

  lemma ParseOfParts(f: Fields, frames: seq<U64>, rest: seq<Byte>, data: seq<Byte>)
    requires f.nFrames == |frames| && 8 * |frames| <= |rest| && data == Header(f) + rest
    ensures Parsed(data) ==
      if |frames| > MAX_FRAMES then None
      else Some(Blob(f.signal, f.siCode, f.siAddr, f.pid, f.timestamp, FramesOf(data, |frames|), VersionText(Padded(f.version))))
  {
    HeaderSlices(f, rest);
    ParsedNumbers(data, f);
  }

  // ---------------------------------------------------------------- the version field

  function Nuls(k: nat): (s: string)
    ensures |s| == k && forall i :: 0 <= i < k ==> s[i] == '\0'
  {
    if k == 0 then "" else ['\0'] + Nuls(k - 1)
  }

  lemma {:induction false} EncodeNuls(k: nat)
    ensures Utf8.Encode(Nuls(k)) == Zeros(k)
  {
    if k > 0 { EncodeNuls(k - 1); }
  }

  lemma TrimSplits(s: string)
    ensures s == TrimNul(s) + Nuls(|s| - |TrimNul(s)|)
  {
  }

  lemma {:induction false} TrimPadded(s: string, k: nat)
    requires s == "" || s[|s| - 1] != '\0'
    ensures TrimNul(s + Nuls(k)) == s
  {
    var padded := s + Nuls(k);
    if k == 0 {
      assert padded == s;
    } else {
      assert padded[..|padded| - 1] == s + Nuls(k - 1);
      TrimPadded(s, k - 1);
    }
  }

  /** A valid field is the encoded text, padded. */
  lemma ValidFieldIsPadded(b: seq<Byte>)
    requires |b| == VERSION_STRING_LEN && Utf8.Decode(b).Some?
    ensures Padded(Utf8.Encode(VersionText(b))) == b && |Utf8.Encode(VersionText(b))| <= VERSION_STRING_LEN
  {
    var d := Utf8.Decode(b).value;
    var a := TrimNul(d);
    var k := |d| - |a|;
    Utf8.DecodeInvertsEncode(b, d);
    TrimSplits(d);
    Utf8.EncodeConcat(a, Nuls(k));
    EncodeNuls(k);
    assert b == Utf8.Encode(a) + Zeros(k);
  }

  lemma PaddedDecodes(s: string)
    requires |Utf8.Encode(s)| <= VERSION_STRING_LEN
    ensures var k := VERSION_STRING_LEN - |Utf8.Encode(s)|;
      Utf8.Decode(Padded(Utf8.Encode(s))) == Some(s + Nuls(k))
  {
    var k := VERSION_STRING_LEN - |Utf8.Encode(s)|;
    Utf8.EncodeConcat(s, Nuls(k));
    EncodeNuls(k);
    Utf8.DecodeInvertsEncode(Padded(Utf8.Encode(s)), s + Nuls(k));
  }

  lemma LastByte(s: string)
    requires s != ""
    ensures var b := Utf8.Encode(s); b != [] && (b[|b| - 1] == 0 <==> s[|s| - 1] == '\0')
  {
    var n := |s| - 1;
    assert s == s[..n] + [s[n]];
    Utf8.EncodeConcat(s[..n], [s[n]]);
    assert [s[n]][1..] == [];
    assert Utf8.Encode([s[n]]) == Utf8.EncodeChar(s[n]);
  }

  predicate Plain(v: seq<Byte>) { |v| <= VERSION_STRING_LEN && Utf8.Decode(v).Some? && (v == [] || v[|v| - 1] != 0) }

  lemma SurvivorIsPlain(v: seq<Byte>)
    requires Utf8.Encode(VersionText(Padded(v))) == v
    ensures Plain(v)
  {
    var a := VersionText(Padded(v));
    Utf8.DecodeInvertsEncode(v, a);
    if a != "" {
      LastByte(a);
      ValidFieldIsPadded(Padded(v));
    }
  }

  lemma PlainSurvives(v: seq<Byte>)
    requires Plain(v)
    ensures Utf8.Encode(VersionText(Padded(v))) == v
  {
    var s := Utf8.Decode(v).value;
    Utf8.DecodeInvertsEncode(v, s);
    NoTrailingNul(s, v);
    PaddedDecodes(s);
    PaddedText(Padded(v), s, VERSION_STRING_LEN - |v|);
  }

  lemma NoTrailingNul(s: string, v: seq<Byte>)
    requires Utf8.Encode(s) == v && (v == [] || v[|v| - 1] != 0)
    ensures s == "" || s[|s| - 1] != '\0'
  {
    if s != "" { LastByte(s); }
  }

  lemma PaddedText(b: seq<Byte>, s: string, k: nat)
    requires Utf8.Decode(b) == Some(s + Nuls(k)) && (s == "" || s[|s| - 1] != '\0')
    ensures VersionText(b) == s
  {
    TrimPadded(s, k);
  }

  /** The version comes back exactly when it is valid UTF-8 of at most 32 bytes without trailing NUL. */
  lemma VersionSurvivesIff(v: seq<Byte>)
    ensures Utf8.Encode(VersionText(Padded(v))) == v <==>
      |v| <= VERSION_STRING_LEN && Utf8.Decode(v).Some? && (v == [] || v[|v| - 1] != 0)
  {
    if Plain(v) { PlainSurvives(v); }
    if Utf8.Encode(VersionText(Padded(v))) == v { SurvivorIsPlain(v); }
  }

  // ---------------------------------------------------------------- writing what was parsed

  function FieldsOf(b: Blob): Fields
    requires |b.frames| <= MAX_FRAMES
  {
    Fields(b.signal, b.siCode, b.siAddr, b.pid, b.timestamp, |b.frames|, Utf8.Encode(b.appVersion))
  }

  /** The header of what was parsed, with the version field left open. */
  lemma HeaderOfParsed(data: seq<Byte>)
    requires Parsed(data).Some?
    ensures var b := Parsed(data).value;
      |b.frames| <= MAX_FRAMES && (Header(FieldsOf(b)) == data[..64] <==> Padded(Utf8.Encode(b.appVersion)) == data[32..64])
  {
    var b := Parsed(data).value;
    var h := Header(FieldsOf(b));
    WordsOfParsed(data);
    HeaderSlices(FieldsOf(b), []);
    assert h + [] == h;
    SameButVersion(h, data[..64]);
    SubSlices(data);
  }

  lemma WordsOfParsed(data: seq<Byte>)
    requires |data| >= HEADER_SIZE
    ensures LE(Unsigned(Signed(U32Of(data[6..10]))), 4) == data[6..10] && LE(U64Of(data[10..18]), 8) == data[10..18]
    ensures LE(U32Of(data[18..22]), 4) == data[18..22] && LE(U64Of(data[22..30]), 8) == data[22..30]
    ensures LE(U16Of(data[30..32]), 2) == data[30..32]
  {
    LEOfFromLE(data[6..10]);
    LEOfFromLE(data[10..18]);
    LEOfFromLE(data[18..22]);
    LEOfFromLE(data[22..30]);
    LEOfFromLE(data[30..32]);
  }

  lemma SubSlices(data: seq<Byte>)
    requires |data| >= HEADER_SIZE
    ensures var h := data[..64];
      && h[..4] == data[..4] && h[4] == data[4] && h[5] == data[5] && h[6..10] == data[6..10] && h[10..18] == data[10..18]
      && h[18..22] == data[18..22] && h[22..30] == data[22..30] && h[30..32] == data[30..32] && h[32..64] == data[32..64]
  {
  }

  lemma SameButVersion(a: seq<Byte>, b: seq<Byte>)
    requires |a| == |b| == HEADER_SIZE
    ensures (a[..4] == b[..4] && a[4] == b[4] && a[5] == b[5] && a[6..10] == b[6..10] && a[10..18] == b[10..18] &&
             a[18..22] == b[18..22] && a[22..30] == b[22..30] && a[30..32] == b[30..32])
      ==> (a == b <==> a[32..64] == b[32..64])
  {
    Segments(a);
    Segments(b);
  }

  lemma Segments(h: seq<Byte>)
    requires |h| == HEADER_SIZE
    ensures h == h[..4] + [h[4], h[5]] + h[6..10] + h[10..18] + h[18..22] + h[22..30] + h[30..32] + h[32..64]
  {
  }

  lemma {:induction false} FrameBytesOfParsed(data: seq<Byte>, n: nat)
    requires HEADER_SIZE + 8 * n <= |data|
    ensures FrameBytes(FramesOf(data, n)) == data[HEADER_SIZE..HEADER_SIZE + 8 * n]
  {
    if n > 0 {
      var before, lo := FramesOf(data, n - 1), HEADER_SIZE + 8 * (n - 1);
      FrameBytesOfParsed(data, n - 1);
      NextFrame(data, n);
      FrameBytesStep(data, before, lo);
    }
  }

  lemma FrameBytesStep(data: seq<Byte>, frames: seq<U64>, lo: nat)
    requires HEADER_SIZE <= lo && lo + 8 <= |data| && FrameBytes(frames) == data[HEADER_SIZE..lo]
    ensures FrameBytes(frames + [U64Of(data[lo..lo + 8])]) == data[HEADER_SIZE..lo + 8]
  {
    FrameBytesSnoc(frames, U64Of(data[lo..lo + 8]));
    LEOfFromLE(data[lo..lo + 8]);
    Extend(data, HEADER_SIZE, lo, lo + 8);
  }

  lemma FrameBytesSnoc(frames: seq<U64>, last: U64)
    ensures FrameBytes(frames + [last]) == FrameBytes(frames) + LE(last, 8)
  {
    assert (frames + [last])[..|frames|] == frames;
  }

  lemma Extend(data: seq<Byte>, lo: nat, mid: nat, hi: nat)
    requires lo <= mid <= hi <= |data|
    ensures data[lo..hi] == data[lo..mid] + data[mid..hi]
  {
  }

  lemma SplitEqual(a: seq<Byte>, b: seq<Byte>, c: seq<Byte>, n: nat, end: nat)
    requires |a| == n <= end <= |c| && b == c[n..end]
    ensures a + b == c[..end] <==> a == c[..n]
  {
    assert (a + b)[..n] == a;
    assert c[..end] == c[..n] + c[n..end];
  }

  lemma FieldReproducedIff(field: seq<Byte>)
    requires |field| == VERSION_STRING_LEN
    ensures Padded(Utf8.Encode(VersionText(field))) == field <==> Utf8.Decode(field).Some?
  {
    if Utf8.Decode(field).Some? { ValidFieldIsPadded(field); } else { PaddedDecodes(""); }
  }

  lemma BlobReproducedIff(data: seq<Byte>, f: Fields, frames: seq<U64>)
    requires HEADER_SIZE + 8 * |frames| <= |data| && frames == FramesOf(data, |frames|)
    ensures BlobBytes(f, frames) == data[..HEADER_SIZE + 8 * |frames|] <==> Header(f) == data[..64]
  {
    FrameBytesOfParsed(data, |frames|);
    SplitEqual(Header(f), FrameBytes(frames), data, HEADER_SIZE, HEADER_SIZE + 8 * |frames|);
  }

  /** Writing an accepted blob again reproduces its header and frames exactly when its version
      field is valid UTF-8. */
  lemma RewriteReproducesIff(data: seq<Byte>)
    requires Parsed(data).Some?
    ensures var b := Parsed(data).value;
      && |b.frames| <= MAX_FRAMES && HEADER_SIZE + 8 * |b.frames| <= |data|
      && (BlobBytes(FieldsOf(b), b.frames) == data[..HEADER_SIZE + 8 * |b.frames|] <==> Utf8.Decode(data[32..64]).Some?)
  {
    var b := Parsed(data).value;
    HeaderOfParsed(data);
    BlobReproducedIff(data, FieldsOf(b), b.frames);
    FieldReproducedIff(data[32..64]);
  }
}
