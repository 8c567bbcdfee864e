/**
 Blob frames (agent/src/core/blob.cpp:11-116): the uuid in its text and byte form, and the frame of
 one chunk of a named, sized blob.
 */
module BlobCodec {
  import opened Common

  const TWO64 := 0x1_0000_0000_0000_0000
  type U64 = x: int | 0 <= x < TWO64

  const VERSION: Byte := 1
  const HEADER_BYTES := 37
  const MAX_CHUNK_PAYLOAD := 256 * 1024

  datatype Chunk = Chunk(id: string, offset: U64, len: U64, payload: seq<Byte>)

  datatype EncodeError = MalformedId | OversizedPayload | OverrunsLength

  // ------------------------------------------------------------------ uuids

  function HexValue(c: char): (v: int)
    ensures -1 <= v < 16
  {
    if '0' <= c <= '9' then c as int - '0' as int
    else if 'a' <= c <= 'f' then c as int - 'a' as int + 10
    else if 'A' <= c <= 'F' then c as int - 'A' as int + 10
    else -1
  }

  function HexDigit(v: int): char
    requires 0 <= v < 16
  {
    if v < 10 then '0' + v as char else 'a' + (v - 10) as char
  }

  function Lower(c: char): char {
    if 'A' <= c <= 'F' then 'a' + (c - 'A') else c
  }

  function LowerCase(s: string): string { seq(|s|, i requires 0 <= i < |s| => Lower(s[i])) }

  predicate IsDash(i: int) { i == 8 || i == 13 || i == 18 || i == 23 }

  /** Where the two digits of byte `k` stand in the text: 8-4-4-4-12. */
  function DigitsAt(k: nat): nat {
    2 * k + (if k >= 4 then 1 else 0) + (if k >= 6 then 1 else 0) + (if k >= 8 then 1 else 0)
      + (if k >= 10 then 1 else 0)
  }

  predicate IsByteAt(text: string, k: nat)
    requires DigitsAt(k) + 1 < |text|
  {
    HexValue(text[DigitsAt(k)]) >= 0 && HexValue(text[DigitsAt(k) + 1]) >= 0
  }

  predicate IsUuid(text: string) {
    && |text| == 36
    && text[8] == '-' && text[13] == '-' && text[18] == '-' && text[23] == '-'
    && forall k :: 0 <= k < 16 ==> IsByteAt(text, k)
  }

  function ByteAt(text: string, k: nat): Byte
    requires DigitsAt(k) + 1 < |text| && IsByteAt(text, k)
  {
    16 * HexValue(text[DigitsAt(k)]) + HexValue(text[DigitsAt(k) + 1])
  }

  function UuidOf(text: string): seq<Byte>
    requires IsUuid(text)
  {
    seq(16, k requires 0 <= k < 16 => ByteAt(text, k))
  }

  function DashesBefore(i: int): int {
    (if i > 8 then 1 else 0) + (if i > 13 then 1 else 0) + (if i > 18 then 1 else 0) + (if i > 23 then 1 else 0)
  }

  function CharAt(b: seq<Byte>, i: nat): char
    requires |b| == 16 && i < 36
  {
    if IsDash(i) then '-'
    else
      var j := i - DashesBefore(i);
      HexDigit(if j % 2 == 0 then b[j / 2] / 16 else b[j / 2] % 16)
  }

  function TextOf(b: seq<Byte>): string
    requires |b| == 16
  {
    seq(36, i requires 0 <= i < 36 => CharAt(b, i))
  }

  method UuidBytes(text: string) returns (r: Option<seq<Byte>>)
    ensures r == if IsUuid(text) then Some(UuidOf(text)) else None
  {
    if |text| != 36 { return None; }
    var out: seq<Byte> := [];
    var i := 0;
    while i < |text|
      invariant 0 <= i <= 36 && |out| <= 16
      invariant i == DigitsAt(|out|) || (IsDash(i) && i + 1 == DigitsAt(|out|))
      invariant forall d :: IsDash(d) && d < i ==> text[d] == '-'
      invariant forall k :: 0 <= k < |out| ==> DigitsAt(k) + 1 < 36 && IsByteAt(text, k) && out[k] == ByteAt(text, k)
    {
      var c := text[i];
      if i == 8 || i == 13 || i == 18 || i == 23 {
        if c != '-' { return None; }
        i := i + 1;
        continue;
      }
      var hi := HexValue(c);
      i := i + 1;
      var lo := HexValue(text[i]);
      if hi < 0 || lo < 0 || |out| >= 16 {
        assert !IsByteAt(text, |out|);
        return None;
      }
      out := out + [16 * hi + lo];
      i := i + 1;
    }
    assert |out| == 16;
    assert IsDash(8) && IsDash(13) && IsDash(18) && IsDash(23);
    assert out == UuidOf(text);
    return if |out| == 16 then Some(out) else None;
  }

  method UuidText(b: seq<Byte>) returns (s: string)
    requires |b| == 16
    ensures s == TextOf(b)
  {
    s := "";
    for i := 0 to 16
      invariant |s| == if i == 4 || i == 6 || i == 8 || i == 10 then DigitsAt(i) - 1 else DigitsAt(i)
      invariant |s| <= 36 && forall j :: 0 <= j < |s| ==> s[j] == CharAt(b, j)
    {
      DigitsOf(b, i);
      if i == 4 || i == 6 || i == 8 || i == 10 { s := s + "-"; }
      s := s + [HexDigit(b[i] / 16)];
      s := s + [HexDigit(b[i] % 16)];
    }
  }

  lemma DigitsOf(b: seq<Byte>, k: nat)
    requires |b| == 16 && k < 16
    ensures DigitsAt(k) + 1 < 36
    ensures CharAt(b, DigitsAt(k)) == HexDigit(b[k] / 16) && CharAt(b, DigitsAt(k) + 1) == HexDigit(b[k] % 16)
  {
  }

  lemma HexRoundTrip(v: int)
    requires 0 <= v < 16
    ensures HexValue(HexDigit(v)) == v && Lower(HexDigit(v)) == HexDigit(v)
  {
  }

  /** Bytes to text and back; the text is in lower case. */
  lemma UuidRoundTrip(b: seq<Byte>)
    requires |b| == 16
    ensures IsUuid(TextOf(b)) && UuidOf(TextOf(b)) == b && LowerCase(TextOf(b)) == TextOf(b)
  {
    forall k: nat | k < 16 ensures IsByteAt(TextOf(b), k) && ByteAt(TextOf(b), k) == b[k] {
      DigitsOf(b, k);
      HexRoundTrip(b[k] / 16);
      HexRoundTrip(b[k] % 16);
    }
    forall i: nat | i < 36 ensures Lower(CharAt(b, i)) == CharAt(b, i) {
      if !IsDash(i) {
        HexRoundTrip(b[(i - DashesBefore(i)) / 2] / 16);
        HexRoundTrip(b[(i - DashesBefore(i)) / 2] % 16);
      }
    }
  }

  lemma HexLower(c: char)
    requires HexValue(c) >= 0
    ensures HexDigit(HexValue(c)) == Lower(c)
  {
  }

  lemma DigitIndex(i: nat) returns (k: nat)
    requires i < 36 && !IsDash(i)
    ensures k < 16 && (i == DigitsAt(k) || i == DigitsAt(k) + 1)
  {
    k := (i - DashesBefore(i)) / 2;
  }

  lemma DigitsRoundTrip(text: string, k: nat)
    requires IsUuid(text) && k < 16
    ensures var i := DigitsAt(k);
            CharAt(UuidOf(text), i) == Lower(text[i]) && CharAt(UuidOf(text), i + 1) == Lower(text[i + 1])
  {
    var b := UuidOf(text);
    DigitsOf(b, k);
    assert IsByteAt(text, k) && b[k] == ByteAt(text, k);
    HexLower(text[DigitsAt(k)]);
    HexLower(text[DigitsAt(k) + 1]);
  }

  lemma CharRoundTrip(text: string, i: nat)
    requires IsUuid(text) && i < 36
    ensures CharAt(UuidOf(text), i) == Lower(text[i])
  {
    if !IsDash(i) {
      var k := DigitIndex(i);
      DigitsRoundTrip(text, k);
    }
  }

  /** Text to bytes and back: the same uuid in lower case. */
  lemma UuidTextRoundTrip(text: string)
    requires IsUuid(text)
    ensures TextOf(UuidOf(text)) == LowerCase(text)
  {
    forall i: nat | i < 36 ensures CharAt(UuidOf(text), i) == Lower(text[i]) { CharRoundTrip(text, i); }
  }

  // ------------------------------------------------------------------ big-endian numbers

  function Pow256(n: nat): nat { if n == 0 then 1 else 256 * Pow256(n - 1) }

  function BigEndian(v: nat, n: nat): (s: seq<Byte>)
    ensures |s| == n
  {
    if n == 0 then [] else BigEndian(v / 256, n - 1) + [v % 256]
  }

  function Number(s: seq<Byte>): nat {
    if s == [] then 0 else 256 * Number(s[..|s| - 1]) + s[|s| - 1]
  }

  lemma {:induction false} NumberOfBigEndian(v: nat, n: nat)
    requires v < Pow256(n)
    ensures Number(BigEndian(v, n)) == v
  {
    if n > 0 {
      NumberOfBigEndian(v / 256, n - 1);
      assert BigEndian(v, n)[..n - 1] == BigEndian(v / 256, n - 1);
    }
  }

  lemma {:induction false} BigEndianOfNumber(s: seq<Byte>)
    ensures Number(s) < Pow256(|s|) && BigEndian(Number(s), |s|) == s
  {
    if s != [] {
      BigEndianOfNumber(s[..|s| - 1]);
      assert s == s[..|s| - 1] + [s[|s| - 1]];
    }
  }

  lemma Widths()
    ensures Pow256(8) == TWO64 && Pow256(4) == 0x1_0000_0000
  {
    assert Pow256(2) == 0x1_0000 && Pow256(4) == 256 * (256 * Pow256(2));
    assert Pow256(6) == 256 * (256 * Pow256(4)) && Pow256(8) == 256 * (256 * Pow256(6));
  }

  /** Writes the `n` low bytes of `v` at `at`, last byte first. */
  method PutNumber(out: array<Byte>, at: nat, n: nat, v: nat)
    requires at + n <= out.Length
    modifies out
    ensures out[..] == old(out[..at]) + BigEndian(v, n) + old(out[at + n..])
  {
    var i, w := n, v;
    while i > 0
      invariant 0 <= i <= n
      invariant out[..at] == old(out[..at]) && out[at + n..] == old(out[at + n..])
      invariant BigEndian(v, n) == BigEndian(w, i) + out[at + i..at + n]
    {
      i := i - 1;
      out[at + i] := w % 256;
      w := w / 256;
      assert out[at + i..at + n] == [out[at + i]] + out[at + i + 1..at + n];
    }
    assert out[..] == out[..at] + out[at..at + n] + out[at + n..];
  }

  method GetNumber(s: seq<Byte>) returns (v: nat)
    ensures v == Number(s)
  {
    v := 0;
    for i := 0 to |s|
      invariant v == Number(s[..i])
    {
      assert s[..i + 1][..i] == s[..i];
      v := 256 * v + s[i];
    }
    assert s[..|s|] == s;
  }

  // ------------------------------------------------------------------ frames

  function Header(id: seq<Byte>, offset: U64, len: U64, size: nat): (h: seq<Byte>)
    requires |id| == 16
    ensures |h| == HEADER_BYTES
  {
    [VERSION] + id + BigEndian(offset, 8) + BigEndian(len, 8) + BigEndian(size, 4)
  }

  /** The sum in the overrun check is taken in 64 bits, and wraps. */
  function Encoded(id: string, offset: U64, len: U64, payload: seq<Byte>): Result<seq<Byte>, EncodeError> {
    if !IsUuid(id) then Err(MalformedId)
    else if |payload| > MAX_CHUNK_PAYLOAD then Err(OversizedPayload)
    else if (offset + |payload|) % TWO64 > len then Err(OverrunsLength)
    else Ok(Header(UuidOf(id), offset, len, |payload|) + payload)
  }

  function Parsed(frame: seq<Byte>): Option<Chunk> {
    if |frame| < HEADER_BYTES || frame[0] != VERSION then None
    else
      var offset, len, size := Number(frame[17..25]), Number(frame[25..33]), Number(frame[33..37]);
      if size != |frame| - HEADER_BYTES || size > MAX_CHUNK_PAYLOAD || offset > len || size > len - offset then None
      else
        Widths();
        BigEndianOfNumber(frame[17..25]);
        BigEndianOfNumber(frame[25..33]);
        Some(Chunk(TextOf(frame[1..17]), offset, len, frame[37..]))
  }

  method WriteId(frame: array<Byte>, id: seq<Byte>)
    requires |id| == 16 && frame.Length >= HEADER_BYTES
    modifies frame
    ensures frame[..17] == [VERSION] + id
  {
    frame[0] := VERSION;
    for i := 0 to 16
      invariant frame[0] == VERSION && forall k :: 0 <= k < i ==> frame[1 + k] == id[k]
    {
      frame[1 + i] := id[i];
    }
  }

  method WriteHeader(frame: array<Byte>, id: seq<Byte>, offset: U64, len: U64, size: nat)
    requires |id| == 16 && frame.Length >= HEADER_BYTES && size <= MAX_CHUNK_PAYLOAD
    modifies frame
    ensures frame[..37] == Header(id, offset, len, size)
  {
    WriteId(frame, id);
    PutNumber(frame, 17, 8, offset);
    assert frame[..25] == [VERSION] + id + BigEndian(offset, 8);
    PutNumber(frame, 25, 8, len);
    assert frame[..33] == [VERSION] + id + BigEndian(offset, 8) + BigEndian(len, 8);
    PutNumber(frame, 33, 4, size);
  }

  method WritePayload(frame: array<Byte>, payload: seq<Byte>)
    requires frame.Length == HEADER_BYTES + |payload|
    modifies frame
    ensures frame[..] == old(frame[..37]) + payload
  {
    for i := 0 to |payload|
      invariant frame[..37] == old(frame[..37]) && forall k :: 0 <= k < i ==> frame[37 + k] == payload[k]
    {
      frame[37 + i] := payload[i];
    }
    assert frame[..] == frame[..37] + frame[37..] && frame[37..] == payload;
  }

  method EncodeChunk(id: string, offset: U64, len: U64, payload: seq<Byte>) returns (r: Result<seq<Byte>, EncodeError>)
    ensures r == Encoded(id, offset, len, payload)
  {
    var uuid := UuidBytes(id);
    if uuid.None? { return Err(MalformedId); }
    if |payload| > MAX_CHUNK_PAYLOAD { return Err(OversizedPayload); }
    if (offset + |payload|) % TWO64 > len { return Err(OverrunsLength); }
    var frame := new Byte[HEADER_BYTES + |payload|](_ => 0);
    WriteHeader(frame, uuid.value, offset, len, |payload|);
    WritePayload(frame, payload);
    return Ok(frame[..]);
  }

  method ParseChunk(frame: seq<Byte>) returns (r: Option<Chunk>)
    ensures r == Parsed(frame)
  {
    if |frame| < HEADER_BYTES { return None; }
    if frame[0] != VERSION { return None; }
    var text := UuidText(frame[1..17]);
    var offset := GetNumber(frame[17..25]);
    var len := GetNumber(frame[25..33]);
    var size := GetNumber(frame[33..37]);
    if size != |frame| - HEADER_BYTES { return None; }
    if size > MAX_CHUNK_PAYLOAD { return None; }
    if offset > len || size > len - offset { return None; }
    Widths();
    BigEndianOfNumber(frame[17..25]);
    BigEndianOfNumber(frame[25..33]);
    return Some(Chunk(text, offset, len, frame[37..]));
  }

  lemma Slices(id: seq<Byte>, a: seq<Byte>, b: seq<Byte>, c: seq<Byte>, payload: seq<Byte>)
    requires |id| == 16 && |a| == 8 && |b| == 8 && |c| == 4
    ensures var f := [VERSION] + id + a + b + c + payload;
            f[0] == VERSION && f[1..17] == id && f[17..25] == a && f[25..33] == b && f[33..37] == c
              && f[37..] == payload
  {
    var h := [VERSION] + id + a + b + c;
    assert (h + payload)[37..] == payload && (h + payload)[..37] == h;
    var g := [VERSION] + id + a + b;
    assert (g + c)[33..37] == c && (g + c)[..33] == g;
  }

  lemma Reassembled(f: seq<Byte>)
    requires |f| >= HEADER_BYTES
    ensures f == [f[0]] + f[1..17] + f[17..25] + f[25..33] + f[33..37] + f[37..]
  {
    assert f[..33] == [f[0]] + f[1..17] + f[17..25] + f[25..33];
    assert f[..37] == f[..33] + f[33..37];
    assert f == f[..37] + f[37..];
  }

  lemma HeaderFields(id: seq<Byte>, offset: U64, len: U64, payload: seq<Byte>)
    requires |id| == 16 && |payload| <= MAX_CHUNK_PAYLOAD
    ensures var f := Header(id, offset, len, |payload|) + payload;
            && f[0] == VERSION && f[1..17] == id && f[37..] == payload
            && Number(f[17..25]) == offset && Number(f[25..33]) == len && Number(f[33..37]) == |payload|
  {
    Widths();
    Slices(id, BigEndian(offset, 8), BigEndian(len, 8), BigEndian(|payload|, 4), payload);
    NumberOfBigEndian(offset, 8);
    NumberOfBigEndian(len, 8);
    NumberOfBigEndian(|payload|, 4);
  }

  /** An encoded frame parses back to its chunk, the id in lower case, exactly when its end does not wrap. */
  lemma ParseOfEncoded(id: string, offset: U64, len: U64, payload: seq<Byte>)
    requires Encoded(id, offset, len, payload).Ok?
    ensures Parsed(Encoded(id, offset, len, payload).value)
         == if offset + |payload| < TWO64 then Some(Chunk(LowerCase(id), offset, len, payload)) else None
  {
    HeaderFields(UuidOf(id), offset, len, payload);
    UuidTextRoundTrip(id);
  }

  /** A frame that wraps: one byte at the last offset of an empty blob encodes, and does not parse. */
  lemma WrappedFrame(id: string)
    requires IsUuid(id)
    ensures Encoded(id, TWO64 - 1, 0, [0]).Ok? && Parsed(Encoded(id, TWO64 - 1, 0, [0]).value) == None
  {
    ParseOfEncoded(id, TWO64 - 1, 0, [0]);
  }

  /** A frame that parses is the encoding of what it parses to. */
  lemma EncodedOfParse(frame: seq<Byte>)
    requires Parsed(frame).Some?
    ensures var c := Parsed(frame).value;
            c.offset + |c.payload| < TWO64 && LowerCase(c.id) == c.id
              && Encoded(c.id, c.offset, c.len, c.payload) == Ok(frame)
  {
    UuidRoundTrip(frame[1..17]);
    BigEndianOfNumber(frame[17..25]);
    BigEndianOfNumber(frame[25..33]);
    BigEndianOfNumber(frame[33..37]);
    Widths();
    Reassembled(frame);
  }

  /** `ParseChunk` accepts exactly the frames `EncodeChunk` makes of chunks whose end does not wrap. */
  lemma AcceptsExactlyTheEncoded(frame: seq<Byte>)
    ensures Parsed(frame).Some? <==>
            exists id, offset: U64, len: U64, payload :: offset + |payload| < TWO64
              && Encoded(id, offset, len, payload) == Ok(frame)
  {
    if Parsed(frame).Some? { EncodedOfParse(frame); }
    forall id, offset: U64, len: U64, payload | offset + |payload| < TWO64
        && Encoded(id, offset, len, payload) == Ok(frame)
      ensures Parsed(frame).Some?
    {
      ParseOfEncoded(id, offset, len, payload);
    }
  }
}
