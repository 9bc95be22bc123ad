/** Parts travel inside PNG images. A printer and a tolerant chunk parser that undo
    each other (PNG Specification, Second Edition, sections 5.3 and 5.5). */
module Polyglot {
  import opened Bytes

  const MAGIC: seq<byte> := [0x89, 0x50, 0x4E, 0x47, 0x0D, 0x0A, 0x1A, 0x0A]
  const IHDR: seq<byte> := [0x49, 0x48, 0x44, 0x52]
  const IDAT: seq<byte> := [0x49, 0x44, 0x41, 0x54]
  const DDAT: seq<byte> := [0x64, 0x44, 0x61, 0x74]
  const CAPT: seq<byte> := [0x63, 0x61, 0x50, 0x74]
  const TEXT: seq<byte> := [0x74, 0x45, 0x58, 0x74]
  const IEND: seq<byte> := [0x49, 0x45, 0x4E, 0x44]
  const IHDR_DATA: seq<byte> := [0, 0, 0, 1, 0, 0, 0, 1, 8, 6, 0, 0, 0]
  const IDAT_DATA: seq<byte> := [0x78, 0x9C, 0x63, 0x00, 0x01, 0x00, 0x00, 0x05, 0x00, 0x01, 0x0D, 0x0A, 0x2D, 0xB4]
  const TWO_32: nat := 0x1_0000_0000

  datatype PngChunk = PngChunk(kind: seq<byte>, data: seq<byte>) {
    predicate Valid() {
      |kind| == 4
    }
  }

  /** Any checksum: the parser never looks at it. */
  type Checksum = seq<byte> -> nat

  /** binary.BigEndian.PutUint32(uint32(n)): the conversion keeps the low 32 bits. */
  function PutUint32(n: nat): (b: seq<byte>)
    ensures |b| == 4
  {
    [n / 0x100_0000 % 0x100, n / 0x1_0000 % 0x100, n / 0x100 % 0x100, n % 0x100]
  }

  function Uint32(b: seq<byte>): (n: nat)
    requires |b| == 4
    ensures n < TWO_32
  {
    var b0: int, b1: int, b2: int, b3: int := b[0], b[1], b[2], b[3];
    b0 * 0x100_0000 + b1 * 0x1_0000 + b2 * 0x100 + b3
  }

  lemma Uint32RoundTrip(n: nat)
    ensures Uint32(PutUint32(n)) == n % TWO_32
  {
    var a, b, c := n / 0x100, n / 0x1_0000, n / 0x100_0000;
    assert n == a * 0x100 + n % 0x100;
    assert a == b * 0x100 + a % 0x100 by { assert b == a / 0x100; }
    assert b == c * 0x100 + b % 0x100 by { assert c == b / 0x100; }
    assert c == n / TWO_32 * 0x100 + c % 0x100 by { assert n / TWO_32 == c / 0x100; }
  }

  function Encode(crc: Checksum, c: PngChunk): seq<byte> {
    PutUint32(|c.data|) + c.kind + c.data + PutUint32(crc(c.kind + c.data))
  }

  function EncodeAll(crc: Checksum, cs: seq<PngChunk>): seq<byte> {
    if cs == [] then [] else Encode(crc, cs[0]) + EncodeAll(crc, cs[1..])
  }

  /** bytes.Buffer, as far as WrapPNG uses it. */
  class Buffer {
    var bytes: seq<byte>

    constructor ()
      ensures bytes == []
    {
      bytes := [];
    }

    method Write(data: seq<byte>)
      modifies this
      ensures bytes == old(bytes) + data
    {
      bytes := bytes + data;
    }
  }

  method WritePNGChunk(crc: Checksum, buf: Buffer, kind: seq<byte>, data: seq<byte>)
    modifies buf
    ensures buf.bytes == old(buf.bytes) + Encode(crc, PngChunk(kind, data))
  {
    hide *;
    var len, sum := PutUint32(|data|), PutUint32(crc(kind + data));
    ghost var before := buf.bytes;
    buf.Write(len);
    buf.Write(kind);
    buf.Write(data);
    buf.Write(sum);
    EncodeFlat(crc, PngChunk(kind, data), before);
  }

  lemma EncodeFlat(crc: Checksum, c: PngChunk, before: seq<byte>)
    ensures before + Encode(crc, c)
      == before + PutUint32(|c.data|) + c.kind + c.data + PutUint32(crc(c.kind + c.data))
  {
  }

  function Carrier(payload: seq<byte>): seq<PngChunk> {
    [PngChunk(IHDR, IHDR_DATA), PngChunk(IDAT, IDAT_DATA), PngChunk(DDAT, payload), PngChunk(IEND, [])]
  }

  function Wrapped(crc: Checksum, payload: seq<byte>): seq<byte> {
    MAGIC + Encode(crc, PngChunk(IHDR, IHDR_DATA)) + Encode(crc, PngChunk(IDAT, IDAT_DATA))
    + Encode(crc, PngChunk(DDAT, payload)) + Encode(crc, PngChunk(IEND, []))
  }

  method WrapPNG(crc: Checksum, payload: seq<byte>) returns (png: seq<byte>)
    ensures png == Wrapped(crc, payload)
  {
    hide Encode;
    var buf := new Buffer();
    buf.Write(MAGIC);
    assert buf.bytes == MAGIC;
    WritePNGChunk(crc, buf, IHDR, IHDR_DATA);
    WritePNGChunk(crc, buf, IDAT, IDAT_DATA);
    WritePNGChunk(crc, buf, DDAT, payload);
    WritePNGChunk(crc, buf, IEND, []);
    png := buf.bytes;
  }

  predicate IsCarrier(kind: seq<byte>) {
    kind == DDAT || kind == CAPT || kind == TEXT
  }

  function LengthAt(data: seq<byte>, offset: nat): nat
    requires offset + 8 <= |data|
  {
    Uint32(data[offset..offset + 4])
  }

  function KindAt(data: seq<byte>, offset: nat): seq<byte>
    requires offset + 8 <= |data|
  {
    data[offset + 4..offset + 8]
  }

  /** All of the chunk that starts at `offset` is there. */
  predicate HasChunk(data: seq<byte>, offset: nat) {
    offset + 8 <= |data| && offset + 8 + LengthAt(data, offset) + 4 <= |data|
  }

  function PayloadAt(data: seq<byte>, offset: nat): seq<byte>
    requires HasChunk(data, offset)
  {
    data[offset + 8..offset + 8 + LengthAt(data, offset)]
  }

  /** The payloads of the carrier chunks found from `offset` on. */
  function Payloads(data: seq<byte>, offset: nat): seq<seq<byte>>
    decreases |data| - offset
  {
    if !HasChunk(data, offset) then []
    else
      (if IsCarrier(KindAt(data, offset)) then [PayloadAt(data, offset)] else [])
      + Payloads(data, offset + 8 + LengthAt(data, offset) + 4)
  }

  /** What unwrapping makes of the payloads it found in `data`. */
  function Extracted(data: seq<byte>, payloads: seq<seq<byte>>): seq<byte> {
    if |payloads| == 1 then payloads[0]
    else if Concat(payloads) != [] then Concat(payloads)
    else data
  }

  predicate HasMagic(data: seq<byte>) {
    |data| >= 8 && data[..8] == MAGIC
  }

  lemma MagicFirst(body: seq<byte>)
    ensures HasMagic(MAGIC + body)
  {
  }

  function Unwrapped(data: seq<byte>): seq<byte> {
    if HasMagic(data) then Extracted(data, Payloads(data, 8)) else data
  }

  method UnwrapPNG(data: seq<byte>) returns (r: seq<byte>)
    ensures r == Unwrapped(data)
  {
    hide *;
    NoMagic(data);
    if !HasMagic(data) {
      return data;
    }
    var offset: nat := 8;
    var extracted: seq<byte>, firstSlice: seq<byte>, matchCount: nat := [], [], 0;
    ghost var found: seq<seq<byte>> := [];
    ScanStart(data);
    while offset + 8 <= |data|
      invariant 8 <= offset <= |data|
      invariant Scanned(data, found, offset) && Gathered(found, matchCount, firstSlice, extracted)
      decreases |data| - offset
    {
      var chunkLen := LengthAt(data, offset);
      var chunkType := KindAt(data, offset);
      var chunkCrcEnd := offset + 8 + chunkLen + 4;
      ChunkIsThere(data, offset);
      if chunkCrcEnd > |data| {
        break;
      }
      ScanStep(data, found, offset);
      if IsCarrier(chunkType) {
        var payload := PayloadAt(data, offset);
        GatherStep(found, matchCount, firstSlice, extracted, payload);
        matchCount := matchCount + 1;
        if matchCount == 1 {
          firstSlice := payload;
        } else if matchCount == 2 {
          extracted := firstSlice + payload;
        } else {
          extracted := extracted + payload;
        }
        found := found + [payload];
      }
      offset := chunkCrcEnd;
    }
    ChunkIsThere(data, offset);
    ScanEnd(data, found, offset, matchCount, firstSlice, extracted);
    if matchCount == 1 {
      return firstSlice;
    }
    if |extracted| > 0 {
      return extracted;
    }
    return data;
  }

  lemma NoMagic(data: seq<byte>)
    ensures if HasMagic(data) then |data| >= 8 else Unwrapped(data) == data
  {
  }

  lemma ScanStart(data: seq<byte>)
    ensures Scanned(data, [], 8) && Gathered([], 0, [], [])
  {
    assert [] + Payloads(data, 8) == Payloads(data, 8);
  }

  lemma ChunkIsThere(data: seq<byte>, offset: nat)
    ensures HasChunk(data, offset) <==> offset + 8 <= |data| && offset + 8 + LengthAt(data, offset) + 4 <= |data|
  {
  }

  /** The payloads found so far, and those still to be found from `offset` on. */
  ghost predicate Scanned(data: seq<byte>, found: seq<seq<byte>>, offset: nat) {
    found + Payloads(data, offset) == Payloads(data, 8)
  }

  /** What the loop keeps of the payloads it has found: nothing is copied while there is
      only one. */
  ghost predicate Gathered(found: seq<seq<byte>>, matchCount: nat, firstSlice: seq<byte>, extracted: seq<byte>) {
    && matchCount == |found|
    && (matchCount == 1 ==> firstSlice == found[0])
    && extracted == if matchCount > 1 then Concat(found) else []
  }

  lemma ScanStep(data: seq<byte>, found: seq<seq<byte>>, offset: nat)
    requires Scanned(data, found, offset) && HasChunk(data, offset)
    ensures var found' := if IsCarrier(KindAt(data, offset)) then found + [PayloadAt(data, offset)] else found;
      Scanned(data, found', offset + 8 + LengthAt(data, offset) + 4)
  {
  }

  lemma GatherStep(found: seq<seq<byte>>, n: nat, firstSlice: seq<byte>, extracted: seq<byte>, payload: seq<byte>)
    requires Gathered(found, n, firstSlice, extracted)
    ensures Gathered(found + [payload], n + 1, if n == 0 then payload else firstSlice,
      if n == 0 then extracted else if n == 1 then firstSlice + payload else extracted + payload)
  {
    FoundOneMore(found, payload);
  }

  lemma ScanEnd(data: seq<byte>, found: seq<seq<byte>>, offset: nat,
                matchCount: nat, firstSlice: seq<byte>, extracted: seq<byte>)
    requires HasMagic(data) && Scanned(data, found, offset) && !HasChunk(data, offset)
    requires Gathered(found, matchCount, firstSlice, extracted)
    ensures Unwrapped(data) == if matchCount == 1 then firstSlice else if |extracted| > 0 then extracted else data
  {
    assert found + [] == found;
    if matchCount == 0 {
      assert Concat(found) == [];
    }
  }

  lemma FoundOneMore(found: seq<seq<byte>>, payload: seq<byte>)
    ensures Concat(found + [payload]) == Concat(found) + payload
    ensures |found| == 1 ==> Concat(found) == found[0]
  {
    ConcatAppend(found, [payload]);
  }

  /** Only what lies behind the offset matters. */
  lemma {:induction false} PayloadsShift(pre: seq<byte>, data: seq<byte>, offset: nat)
    ensures Payloads(pre + data, |pre| + offset) == Payloads(data, offset)
    decreases |data| - offset
  {
    FieldsShift(pre, data, offset);
    hide KindAt, LengthAt, PayloadAt, IsCarrier;
    if HasChunk(data, offset) {
      PayloadsShift(pre, data, offset + 8 + LengthAt(data, offset) + 4);
    }
  }

  lemma FieldsShift(pre: seq<byte>, data: seq<byte>, offset: nat)
    ensures var all, at := pre + data, |pre| + offset;
      && (HasChunk(all, at) <==> HasChunk(data, offset))
      && (offset + 8 <= |data| ==>
            LengthAt(all, at) == LengthAt(data, offset) && KindAt(all, at) == KindAt(data, offset))
      && (HasChunk(data, offset) ==> PayloadAt(all, at) == PayloadAt(data, offset))
  {
    hide Uint32;
    var all, at := pre + data, |pre| + offset;
    if offset + 8 <= |data| {
      SliceShift(pre, data, offset, offset + 4);
      SliceShift(pre, data, offset + 4, offset + 8);
      if HasChunk(data, offset) {
        SliceShift(pre, data, offset + 8, offset + 8 + LengthAt(data, offset));
      }
    }
  }

  lemma SliceShift(pre: seq<byte>, data: seq<byte>, lo: nat, hi: nat)
    requires lo <= hi <= |data|
    ensures (pre + data)[|pre| + lo..|pre| + hi] == data[lo..hi]
  {
  }

  function CarrierData(cs: seq<PngChunk>): seq<seq<byte>> {
    if cs == [] then []
    else (if IsCarrier(cs[0].kind) then [cs[0].data] else []) + CarrierData(cs[1..])
  }

  /** Reading one chunk: its length field, its type, and as much of what follows as the
      length field says. */
  lemma ParseHead(len: seq<byte>, kind: seq<byte>, body: seq<byte>)
    requires |len| == |kind| == 4 && Uint32(len) + 4 <= |body|
    ensures var n := Uint32(len);
      Payloads(len + kind + body, 0) == (if IsCarrier(kind) then [body[..n]] else []) + Payloads(body[n + 4..], 0)
  {
    var all, n := len + kind + body, Uint32(len);
    HeadFields(len, kind, body);
    HeadPayload(len, kind, body, n);
    var pre := all[..n + 12];
    PayloadsShift(pre, body[n + 4..], 0);
    HeadUnfolds(all, n);
    hide *;
    assert all == pre + body[n + 4..];
  }

  /** One unfolding of the parser. */
  lemma HeadUnfolds(all: seq<byte>, n: nat)
    requires HasChunk(all, 0) && LengthAt(all, 0) == n
    ensures Payloads(all, 0) == (if IsCarrier(KindAt(all, 0)) then [PayloadAt(all, 0)] else []) + Payloads(all, n + 12)
  {
    hide IsCarrier;
  }

  lemma HeadFields(len: seq<byte>, kind: seq<byte>, body: seq<byte>)
    requires |len| == |kind| == 4
    ensures var all := len + kind + body;
      |all| == 8 + |body| && all[0..4] == len && all[4..8] == kind
  {
  }

  lemma HeadPayload(len: seq<byte>, kind: seq<byte>, body: seq<byte>, n: nat)
    requires |len| == |kind| == 4 && n + 4 <= |body|
    ensures var all := len + kind + body;
      all[8..8 + n] == body[..n] && all == all[..n + 12] + body[n + 4..]
  {
  }

  lemma ParseOne(crc: Checksum, c: PngChunk, rest: seq<byte>)
    requires c.Valid() && |c.data| < TWO_32
    ensures Payloads(Encode(crc, c) + rest, 0)
      == (if IsCarrier(c.kind) then [c.data] else []) + Payloads(rest, 0)
  {
    hide Payloads, IsCarrier, Uint32;
    var len, sum, n := PutUint32(|c.data|), PutUint32(crc(c.kind + c.data)), |c.data|;
    Uint32RoundTrip(n);
    var body := c.data + sum + rest;
    assert body[..n] == c.data && body[n + 4..] == rest;
    assert Encode(crc, c) + rest == len + c.kind + body;
    ParseHead(len, c.kind, body);
  }

  /** The parser reads back any list of printed chunks, and stops at a tail that is not
      a whole chunk. */
  lemma {:induction false} ParseEncoded(crc: Checksum, cs: seq<PngChunk>, tail: seq<byte>)
    requires forall c :: c in cs ==> c.Valid() && |c.data| < TWO_32
    requires !HasChunk(tail, 0)
    ensures Payloads(EncodeAll(crc, cs) + tail, 0) == CarrierData(cs)
  {
    if cs == [] {
      assert EncodeAll(crc, cs) + tail == tail;
    } else {
      PlusAssoc(Encode(crc, cs[0]), EncodeAll(crc, cs[1..]), tail);
      ParseOne(crc, cs[0], EncodeAll(crc, cs[1..]) + tail);
      ParseEncoded(crc, cs[1..], tail);
    }
  }

  /** Unwrapping any image: the payloads of its carrier chunks in order, or the image
      itself when there is nothing in them to return. */
  lemma UnwrapEncoded(crc: Checksum, cs: seq<PngChunk>, tail: seq<byte>)
    requires forall c :: c in cs ==> c.Valid() && |c.data| < TWO_32
    requires !HasChunk(tail, 0)
    ensures var png := MAGIC + (EncodeAll(crc, cs) + tail);
      Unwrapped(png) ==
        if Concat(CarrierData(cs)) != [] || |CarrierData(cs)| == 1 then Concat(CarrierData(cs)) else png
  {
    var body := EncodeAll(crc, cs) + tail;
    ParseEncoded(crc, cs, tail);
    PayloadsShift(MAGIC, body, 0);
    MagicFirst(body);
    var ps := CarrierData(cs);
    if |ps| == 1 {
      FoundOneMore(ps, []);
    }
  }

  function TotalLength(ps: seq<seq<byte>>): nat {
    if ps == [] then 0 else |ps[0]| + TotalLength(ps[1..])
  }

  lemma {:induction false} ConcatLength(ps: seq<seq<byte>>)
    ensures |Concat(ps)| == TotalLength(ps)
  {
    if ps != [] {
      ConcatLength(ps[1..]);
    }
  }

  /** Payloads are disjoint pieces of the data, each with twelve bytes of frame. */
  lemma {:induction false} PayloadsFit(data: seq<byte>, offset: nat)
    requires offset <= |data|
    ensures TotalLength(Payloads(data, offset)) + 12 * |Payloads(data, offset)| <= |data| - offset
    ensures forall p :: p in Payloads(data, offset) ==> |p| < TWO_32
    decreases |data| - offset
  {
    if HasChunk(data, offset) {
      var end := offset + 8 + LengthAt(data, offset) + 4;
      PayloadsFit(data, end);
      var rest := Payloads(data, end);
      if IsCarrier(KindAt(data, offset)) {
        var ps := [PayloadAt(data, offset)] + rest;
        assert Payloads(data, offset) == ps && ps[1..] == rest;
      } else {
        assert Payloads(data, offset) == rest;
      }
    }
  }

  /** A payload whose length was truncated is cut short, and whatever its remains parse
      as cannot make up for what is lost. */
  lemma ParseTruncated(crc: Checksum, payload: seq<byte>, last: seq<byte>)
    requires |payload| >= TWO_32 && |last| == 12
    ensures var ps := Payloads(Encode(crc, PngChunk(DDAT, payload)) + last, 0);
      ps != [] && |Concat(ps)| < |payload| && |ps[0]| < |payload|
  {
    hide Payloads, Uint32, Concat, TotalLength;
    var len, sum, n := PutUint32(|payload|), PutUint32(crc(DDAT + payload)), |payload| % TWO_32;
    Uint32RoundTrip(|payload|);
    var body := payload + sum + last;
    assert Encode(crc, PngChunk(DDAT, payload)) + last == len + DDAT + body;
    ParseHead(len, DDAT, body);
    var left := body[n + 4..];
    PayloadsFit(left, 0);
    TooShort(body[..n], Payloads(left, 0), |payload|);
  }

  lemma TooShort(first: seq<byte>, rest: seq<seq<byte>>, size: nat)
    requires |first| + TWO_32 <= size
    requires TotalLength(rest) + 12 * |rest| <= size - |first| + 12
    requires forall p :: p in rest ==> |p| < TWO_32
    ensures |Concat([first] + rest)| < size
  {
    var ps := [first] + rest;
    assert ps[1..] == rest;
    ConcatLength(ps);
    if |rest| == 1 {
      assert rest[0] in rest && rest[1..] == [];
    }
  }

  lemma FourChunks(crc: Checksum, payload: seq<byte>)
    ensures var cs := Carrier(payload);
      Wrapped(crc, payload)
      == MAGIC + (Encode(crc, cs[0]) + (Encode(crc, cs[1]) + (Encode(crc, cs[2]) + Encode(crc, cs[3]))))
  {
    hide Encode;
  }

  /** What the parser finds in an image made by WrapPNG, before the payload's own chunk. */
  lemma ParseWrapped(crc: Checksum, payload: seq<byte>)
    ensures HasMagic(Wrapped(crc, payload))
    ensures Payloads(Wrapped(crc, payload), 8)
      == Payloads(Encode(crc, PngChunk(DDAT, payload)) + Encode(crc, PngChunk(IEND, [])), 0)
  {
    hide Payloads, Encode, Wrapped, HasMagic;
    var cs := Carrier(payload);
    FourChunks(crc, payload);
    var body := Encode(crc, cs[2]) + Encode(crc, cs[3]);
    MagicFirst(Encode(crc, cs[0]) + (Encode(crc, cs[1]) + body));
    PayloadsShift(MAGIC, Encode(crc, cs[0]) + (Encode(crc, cs[1]) + body), 0);
    ParseOne(crc, cs[0], Encode(crc, cs[1]) + body);
    ParseOne(crc, cs[1], body);
  }

  /** The behaviour the storage relies on, and exactly how far it goes: a payload comes
      back out of its image if and only if its length fits the 32-bit length field. */
  lemma RoundTrip(crc: Checksum, payload: seq<byte>)
    ensures Unwrapped(Wrapped(crc, payload)) == payload <==> |payload| < TWO_32
  {
    ParseWrapped(crc, payload);
    var last := Encode(crc, PngChunk(IEND, []));
    if |payload| < TWO_32 {
      ParseOne(crc, PngChunk(DDAT, payload), last);
      ParseOne(crc, PngChunk(IEND, []), []);
      assert last + [] == last;
    } else {
      ParseTruncated(crc, payload, last);
    }
  }
}
