/** EBML element framing as functions on bytes: what the reading and writing loops of
    internal/ebml compute (RFC 8794, sections 4 to 7). */
module Ebml {
  import opened Basics

  const ID_EBML: nat := 0x1A45DFA3
  const ID_SEGMENT: nat := 0x18538067
  const ID_SEEK_HEAD: nat := 0x114D9B74
  const ID_SEEK: nat := 0x4DBB
  const ID_SEEK_ID: nat := 0x53AB
  const ID_SEEK_POSITION: nat := 0x53AC
  const ID_INFO: nat := 0x1549A966
  const ID_TIMESTAMP_SCALE: nat := 0x2AD7B1
  const ID_DURATION: nat := 0x4489
  const ID_TITLE: nat := 0x7BA9
  const ID_TRACKS: nat := 0x1654AE6B
  const ID_TRACK_ENTRY: nat := 0xAE
  const ID_TRACK_NUMBER: nat := 0xD7
  const ID_TRACK_TYPE: nat := 0x83
  const ID_CUES: nat := 0x1C53BB6B
  const ID_CUE_POINT: nat := 0xBB
  const ID_CUE_TIME: nat := 0xB3
  const ID_CUE_TRACK_POSITIONS: nat := 0xB7
  const ID_CUE_TRACK: nat := 0xF7
  const ID_CUE_CLUSTER_POSITION: nat := 0xF1
  const ID_CLUSTER: nat := 0x1F43B675
  const ID_TIMESTAMP: nat := 0xE7
  const ID_SIMPLE_BLOCK: nat := 0xA3
  const ID_BLOCK_GROUP: nat := 0xA0
  const ID_BLOCK: nat := 0xA1
  const ID_ENCRYPTED_BLOCK: nat := 0xAF
  const ID_CRC32: nat := 0xBF
  const ID_VOID: nat := 0xEC
  const ID_ATTACHMENTS: nat := 0x1941A469

  /** The size of an element whose length is not encoded. */
  const UNKNOWN_SIZE: int := -1

  datatype Header = Header(id: nat, size: int, headerLen: nat)

  // ---------------------------------------------------------------- reading

  /** The marker bit that starts a variable-size integer of n bytes. */
  function Marker(n: nat): nat
    requires 1 <= n <= 8
  {
    if n == 1 then 128 else if n == 2 then 64 else if n == 3 then 32 else if n == 4 then 16
    else if n == 5 then 8 else if n == 6 then 4 else if n == 7 then 2 else 1
  }

  /** The length announced by a first byte: one more than its leading zero bits; 0 when all are zero. */
  function VintWidth(b0: byte): (n: nat)
    ensures n <= 8
    ensures n == 0 <==> b0 == 0
    ensures n > 0 ==> Marker(n) <= b0 < 2 * Marker(n)
  {
    if b0 >= 128 then 1 else if b0 >= 64 then 2 else if b0 >= 32 then 3 else if b0 >= 16 then 4
    else if b0 >= 8 then 5 else if b0 >= 4 then 6 else if b0 >= 2 then 7 else if b0 >= 1 then 8 else 0
  }

  /** The element ID (marker kept) that starts b, and its length. */
  function DecodeID(b: Bytes): Result<(nat, nat)> {
    if |b| == 0 then Err(Short) else
    var n := VintWidth(b[0]);
    if n == 0 || n > 4 then Err(Invalid) else
    if |b| < n then Err(Short) else
    Ok((BeVal(b[..n]), n))
  }

  /** The element size that starts b, UNKNOWN_SIZE for the reserved value, and its length. */
  function DecodeSize(b: Bytes): Result<(int, nat)> {
    if |b| == 0 then Err(Short) else
    var n := VintWidth(b[0]);
    if n == 0 then Err(Invalid) else
    if |b| < n then Err(Short) else
    var v := BeVal(b[..n]) - Pow128(n);
    Ok((if v == Pow128(n) - 1 then UNKNOWN_SIZE else v, n))
  }

  function ParseHeader(b: Bytes): Result<Header> {
    var (id, il) :- DecodeID(b);
    var (size, sl) :- DecodeSize(b[il..]);
    Ok(Header(id, size, il + sl))
  }

  /** The header at off, decoded from a window of at most 12 bytes. */
  function ReadHeaderAt(r: Bytes, off: nat): Result<Header> {
    if off >= |r| then Err(Eof)
    else ParseHeader(r[off..if off + 12 < |r| then off + 12 else |r|])
  }

  /** A child element: its ID, its payload, and its header and payload together. */
  datatype Element = Element(id: nat, data: Bytes, raw: Bytes)

  /** The elements that make up b. */
  function Elements(b: Bytes): Result<seq<Element>>
    decreases |b|
  {
    if b == [] then Ok([]) else
    var h :- ParseHeader(b);
    if h.size == UNKNOWN_SIZE then Err(Invalid) else
    if h.size > |b| || h.headerLen + h.size > |b| then Err(Invalid) else
    ParsedHeader(b);
    var rest :- Elements(b[h.headerLen + h.size..]);
    Ok([Element(h.id, b[h.headerLen..h.headerLen + h.size], b[..h.headerLen + h.size])] + rest)
  }

  /** The unsigned integer payload b; longer payloads are an error. */
  function UintOf(b: Bytes): Result<nat> {
    if |b| > 8 then Err(Invalid) else Ok(BeVal(b))
  }

  // ---------------------------------------------------------------- writing

  function IDWidth(id: nat): nat {
    if id > 0xFFFFFF then 4 else if id > 0xFFFF then 3 else if id > 0xFF then 2 else 1
  }

  function EncodeID(id: nat): (s: Bytes)
    ensures |s| == IDWidth(id)
  {
    BeBytes(id, IDWidth(id))
  }

  /** v with the bit of weight 128^width set. */
  function WithMarker(v: nat, width: nat): nat {
    if v >= Pow128(width) && v / Pow128(width) % 2 == 1 then v else v + Pow128(width)
  }

  /** Size n in exactly width bytes. */
  function EncodeSize(n: nat, width: nat): (s: Bytes)
    ensures |s| == width
  {
    BeBytes(WithMarker(n, width), width)
  }

  /** The least width from w on whose values, the reserved one excluded, include n. */
  function SizeWidthFrom(n: nat, w: nat): (r: nat)
    requires 1 <= w <= 8
    ensures w <= r <= 8
    decreases 8 - w
  {
    if w < 8 && n >= Pow128(w) - 1 then SizeWidthFrom(n, w + 1) else w
  }

  function MinSizeWidth(n: nat): (r: nat)
    ensures 1 <= r <= 8
  {
    SizeWidthFrom(n, 1)
  }

  function EncodeElement(id: nat, payload: Bytes): Bytes {
    EncodeID(id) + EncodeSize(|payload|, MinSizeWidth(|payload|)) + payload
  }

  /** The least width from n on that holds v; 8 at most. */
  function UintWidthFrom(v: nat, n: nat): (r: nat)
    requires 1 <= n <= 8
    ensures n <= r <= 8
    decreases 8 - n
  {
    if n < 8 && v / Pow256(n) != 0 then UintWidthFrom(v, n + 1) else n
  }

  function EncodeUintWidth(id: nat, v: nat, width: nat): Bytes {
    EncodeElement(id, BeBytes(v, width))
  }

  function EncodeUint(id: nat, v: nat): Bytes {
    EncodeUintWidth(id, v, UintWidthFrom(v, 1))
  }

  // ---------------------------------------------------------------- IDs

  predicate ValidID(id: nat) {
    0x80 <= id <= 0xFF || 0x4000 <= id <= 0x7FFF || 0x20_0000 <= id <= 0x3F_FFFF || 0x1000_0000 <= id <= 0x1FFF_FFFF
  }

  lemma PowTable()
    ensures Pow256(0) == 1 && Pow256(1) == 0x100 && Pow256(2) == 0x1_0000 && Pow256(3) == 0x100_0000
    ensures Pow256(4) == TWO32 && Pow256(5) == 0x100_0000_0000 && Pow256(6) == 0x1_0000_0000_0000 && Pow256(7) == TWO56
    ensures Pow256(8) == TWO64
    ensures Pow128(0) == 1 && Pow128(1) == 0x80 && Pow128(2) == 0x4000 && Pow128(3) == 0x20_0000
      && Pow128(4) == 0x1000_0000
    ensures Pow128(5) == 0x8_0000_0000 && Pow128(6) == 0x400_0000_0000 && Pow128(7) == 0x2_0000_0000_0000
      && Pow128(8) == TWO56
  {
  }

  /** The first byte of a big-endian number places it between multiples of a power of 256. */
  lemma LeadRange(s: Bytes, n: nat)
    requires 1 <= n == |s| <= 8
    ensures VintWidth(s[0]) == n <==> Pow128(n) <= BeVal(s) < 2 * Pow128(n)
  {
    PowTable();
    BeValHead(s);
    BeValBound(s[1..]);
    var t: int, h: int := BeVal(s[1..]), s[0];
    if n == 1 { assert BeVal(s) == h + t; }
    else if n == 2 { assert BeVal(s) == h * 0x100 + t; }
    else if n == 3 { assert BeVal(s) == h * 0x1_0000 + t; }
    else if n == 4 { assert BeVal(s) == h * 0x100_0000 + t; }
    else if n == 5 { assert BeVal(s) == h * TWO32 + t; }
    else if n == 6 { assert BeVal(s) == h * 0x100_0000_0000 + t; }
    else if n == 7 { assert BeVal(s) == h * 0x1_0000_0000_0000 + t; }
    else { assert BeVal(s) == h * TWO56 + t; }
  }

  /** DecodeID accepts exactly the encodings of valid IDs, whatever follows them. */
  lemma DecodeIDAccepts(b: Bytes, id: nat, n: nat)
    ensures DecodeID(b) == Ok((id, n)) <==> ValidID(id) && n == IDWidth(id) && n <= |b| && b[..n] == EncodeID(id)
  {
    PowTable();
    if DecodeID(b) == Ok((id, n)) {
      assert b[..n][0] == b[0];
      LeadRange(b[..n], n);
      BeBytesOfVal(b[..n]);
    }
    if ValidID(id) && n == IDWidth(id) && n <= |b| && b[..n] == EncodeID(id) {
      BeValOfBytes(id, n);
      LeadRange(b[..n], n);
      assert b[..n][0] == b[0];
    }
  }

  /** An accepted ID is written back as the bytes it was read from. */
  lemma IDRoundTrip(b: Bytes)
    requires DecodeID(b).Ok?
    ensures EncodeID(DecodeID(b).value.0) == b[..DecodeID(b).value.1]
  {
    DecodeIDAccepts(b, DecodeID(b).value.0, DecodeID(b).value.1);
  }

  // ---------------------------------------------------------------- sizes

  lemma Pow128Fits(w: nat)
    requires 1 <= w <= 8
    ensures 2 * Pow128(w) <= Pow256(w)
  {
    PowTable();
  }

  lemma EncodedSizeValue(n: nat, w: nat)
    requires 1 <= w <= 8 && n < Pow128(w)
    ensures EncodeSize(n, w) == BeBytes(n + Pow128(w), w)
    ensures BeVal(EncodeSize(n, w)) == n + Pow128(w)
  {
    Pow128Fits(w);
    hide Pow128, Pow256;
    BeValOfBytes(n + Pow128(w), w);
  }

  /** w bytes announce themselves as a size of w bytes exactly when they are some EncodeSize(v, w). */
  lemma SizeBytes(s: Bytes, v: nat, w: nat)
    requires 1 <= w == |s| <= 8 && v < Pow128(w)
    ensures VintWidth(s[0]) == w && BeVal(s) == v + Pow128(w) <==> s == EncodeSize(v, w)
  {
    hide Pow128, Pow256, BeVal, VintWidth;
    EncodedSizeValue(v, w);
    LeadRange(s, w);
    BeBytesOfVal(s);
  }

  lemma DecodedSizeBytes(b: Bytes, v: nat, w: nat)
    requires 1 <= w <= 8 && w <= |b| && v < Pow128(w)
    ensures b[..w] == EncodeSize(v, w) <==> VintWidth(b[0]) == w && BeVal(b[..w]) == v + Pow128(w)
  {
    assert b[..w][0] == b[0];
    SizeBytes(b[..w], v, w);
  }

  /** What DecodeSize says of bytes that are long enough. */
  lemma DecodeSizeShape(b: Bytes, w: nat)
    ensures DecodeSize(b).Ok? && DecodeSize(b).value.1 == w <==> 1 <= w <= 8 && w <= |b| && VintWidth(b[0]) == w
    ensures DecodeSize(b).Ok? && DecodeSize(b).value.1 == w ==> Pow128(w) <= BeVal(b[..w]) < 2 * Pow128(w)
  {
    if 1 <= w <= 8 && w <= |b| {
      assert b[..w][0] == b[0];
      LeadRange(b[..w], w);
    }
  }

  /** DecodeSize gives a known size exactly on that size's encodings that avoid the reserved value. */
  lemma DecodeSizeAccepts(b: Bytes, n: nat, w: nat)
    ensures DecodeSize(b) == Ok((n, w)) <==> 1 <= w <= 8 && n < Pow128(w) - 1 && w <= |b| && b[..w] == EncodeSize(n, w)
  {
    DecodeSizeShape(b, w);
    if 1 <= w <= 8 && w <= |b| && n < Pow128(w) {
      DecodedSizeBytes(b, n, w);
    }
  }

  /** The reserved value is the one whose value bits are all ones. */
  lemma DecodeSizeUnknown(b: Bytes, w: nat)
    ensures DecodeSize(b) == Ok((UNKNOWN_SIZE, w)) <==>
      1 <= w <= 8 && w <= |b| && b[..w] == EncodeSize(Pow128(w) - 1, w)
  {
    DecodeSizeShape(b, w);
    if 1 <= w <= 8 && w <= |b| {
      DecodedSizeBytes(b, Pow128(w) - 1, w);
    }
  }

  /** MinSizeWidth is the least width that can carry n, for every n that some width carries. */
  lemma MinSizeWidthIsLeast(n: nat, w: nat)
    requires 1 <= w <= 8 && n < TWO56 - 1
    ensures n < Pow128(w) - 1 <==> MinSizeWidth(n) <= w
  {
    PowTable();
  }

  /** Reading recovers a size written at its least width or any greater one up to 8. */
  lemma SizeRoundTrip(n: nat, w: nat, rest: Bytes)
    requires n < TWO56 - 1 && MinSizeWidth(n) <= w <= 8
    ensures DecodeSize(EncodeSize(n, w) + rest) == Ok((n, w))
  {
    MinSizeWidthIsLeast(n, w);
    DecodeSizeAccepts(EncodeSize(n, w) + rest, n, w);
  }

  // ---------------------------------------------------------------- headers

  /** Bounds on whatever ParseHeader accepts. */
  lemma ParsedHeader(b: Bytes)
    ensures ParseHeader(b).Ok? ==>
      var h := ParseHeader(b).value;
      2 <= h.headerLen <= 12 && h.headerLen <= |b| && ValidID(h.id) && UNKNOWN_SIZE <= h.size < TWO56 - 1
  {
    if ParseHeader(b).Ok? {
      var (id, il) := DecodeID(b).value;
      var (size, sl) := DecodeSize(b[il..]).value;
      DecodeIDAccepts(b, id, il);
      PowTable();
      if size >= 0 { DecodeSizeAccepts(b[il..], size, sl); } else { LeadRange(b[il..][..sl], sl); }
    }
  }

  /** Bytes that start alike decode to the same ID. */
  lemma IDStable(b: Bytes, c: Bytes, n: nat)
    requires DecodeID(b).Ok? && DecodeID(b).value.1 == n && n <= |c| && c[..n] == b[..n]
    ensures DecodeID(c) == DecodeID(b)
  {
    hide BeVal;
    assert c[..n][0] == b[..n][0];
  }

  lemma SizeStable(b: Bytes, c: Bytes, n: nat)
    requires DecodeSize(b).Ok? && DecodeSize(b).value.1 == n && n <= |c| && c[..n] == b[..n]
    ensures DecodeSize(c) == DecodeSize(b)
  {
    hide BeVal, Pow128;
    assert c[..n][0] == b[..n][0];
  }

  /** A header is decided by its own bytes: whatever follows them may change. */
  lemma HeaderStable(b: Bytes, c: Bytes)
    requires ParseHeader(b).Ok?
    requires ParseHeader(b).value.headerLen <= |c|
    requires c[..ParseHeader(b).value.headerLen] == b[..ParseHeader(b).value.headerLen]
    ensures ParseHeader(c) == ParseHeader(b)
  {
    ParsedHeader(b);
    var h := ParseHeader(b).value.headerLen;
    var il := DecodeID(b).value.1;
    var sl := DecodeSize(b[il..]).value.1;
    hide DecodeID, DecodeSize;
    SubSlice(b, 0, h, 0, il);
    SubSlice(c, 0, h, 0, il);
    IDStable(b, c, il);
    TailSlice(b, il, h);
    TailSlice(c, il, h);
    SizeStable(b[il..], c[il..], sl);
  }

  lemma IDPrefix(b: Bytes, k: nat)
    requires 4 <= k <= |b|
    ensures DecodeID(b[..k]) == DecodeID(b)
  {
    hide BeVal;
    var n := VintWidth(b[0]);
    if n <= 4 { SubSlice(b, 0, k, 0, n); }
  }

  lemma SizePrefix(b: Bytes, k: nat)
    requires 8 <= k <= |b|
    ensures DecodeSize(b[..k]) == DecodeSize(b)
  {
    hide BeVal, Pow128;
    SubSlice(b, 0, k, 0, VintWidth(b[0]));
  }

  /** The 12-byte window decides what the whole rest of the file would, failures included. */
  lemma WindowSuffices(r: Bytes, off: nat)
    requires off < |r|
    ensures ReadHeaderAt(r, off) == ParseHeader(r[off..])
  {
    var b := r[off..];
    if |b| > 12 {
      assert r[off..off + 12] == b[..12];
      IDPrefix(b, 12);
      if DecodeID(b).Ok? {
        var il := DecodeID(b).value.1;
        SubSlice(b, 0, 12, il, 12);
        assert b[..12][il..] == b[il..][..12 - il];
        SizePrefix(b[il..], 12 - il);
      }
    } else {
      assert r[off..|r|] == b;
    }
  }

  /** Reading a header anywhere its bytes stand. */
  lemma HeaderAt(r: Bytes, off: nat, b: Bytes)
    requires ParseHeader(b).Ok? && At(r, off, b[..ParseHeader(b).value.headerLen])
    ensures ReadHeaderAt(r, off) == ParseHeader(b)
  {
    ParsedHeader(b);
    WindowSuffices(r, off);
    var h := ParseHeader(b).value.headerLen;
    assert r[off..][..h] == r[off..off + h];
    HeaderStable(b, r[off..]);
  }

  lemma EncodedHeader(id: nat, n: nat, w: nat, rest: Bytes)
    requires ValidID(id) && n < TWO56 - 1 && MinSizeWidth(n) <= w <= 8
    ensures ParseHeader(EncodeID(id) + EncodeSize(n, w) + rest) == Ok(Header(id, n, IDWidth(id) + w))
  {
    hide DecodeID, DecodeSize, EncodeID, EncodeSize, MinSizeWidth, ValidID;
    var b := EncodeID(id) + EncodeSize(n, w) + rest;
    var il := IDWidth(id);
    assert b[..il] == EncodeID(id);
    DecodeIDAccepts(b, id, il);
    assert b[il..] == EncodeSize(n, w) + rest;
    SizeRoundTrip(n, w, rest);
  }

  // ---------------------------------------------------------------- elements

  /** e is one well-formed element: its raw bytes are a header announcing exactly its payload. */
  predicate IsElement(e: Element) {
    && |e.data| <= |e.raw|
    && ParseHeader(e.raw) == Ok(Header(e.id, |e.data|, |e.raw| - |e.data|))
    && e.raw[|e.raw| - |e.data|..] == e.data
  }

  predicate AllElements(es: seq<Element>) {
    forall i :: 0 <= i < |es| ==> IsElement(es[i])
  }

  /** Every payload is part of its element. */
  predicate Sane(es: seq<Element>) {
    forall i :: 0 <= i < |es| ==> |es[i].data| <= |es[i].raw|
  }

  /** The raw bytes of es, end to end. */
  function Flat(es: seq<Element>): Bytes {
    if es == [] then [] else es[0].raw + Flat(es[1..])
  }

  lemma {:induction false} FlatConcat(a: seq<Element>, b: seq<Element>)
    ensures Flat(a + b) == Flat(a) + Flat(b)
  {
    if a == [] {
      assert a + b == b;
    } else {
      assert (a + b)[1..] == a[1..] + b;
      FlatConcat(a[1..], b);
    }
  }

  lemma FlatOne(e: Element)
    ensures Flat([e]) == e.raw
  {
    assert [e][1..] == [];
    assert Flat([e]) == e.raw + [];
  }

  lemma FlatSnoc(es: seq<Element>, e: Element)
    ensures Flat(es + [e]) == Flat(es) + e.raw
  {
    FlatConcat(es, [e]);
    FlatOne(e);
  }

  lemma FlatTwo(a: Element, b: Element)
    ensures Flat([a, b]) == a.raw + b.raw
  {
    FlatSnoc([a], b);
    FlatOne(a);
    assert [a, b] == [a] + [b];
  }

  lemma FlatNone()
    ensures Flat([]) == []
  {
  }

  /** The first element of an accepted buffer, and where the next one starts. */
  lemma FirstElement(b: Bytes) returns (e: Element)
    requires b != [] && Elements(b).Ok?
    ensures IsElement(e) && 0 < |e.raw| <= |b| && b == e.raw + b[|e.raw|..]
    ensures Elements(b[|e.raw|..]).Ok? && Elements(b).value == [e] + Elements(b[|e.raw|..]).value
  {
    hide DecodeID, DecodeSize;
    var h := ParseHeader(b).value;
    ParsedHeader(b);
    var n := h.headerLen + h.size;
    e := Element(h.id, b[h.headerLen..n], b[..n]);
    SubSlice(b, 0, n, 0, h.headerLen);
    SubSlice(b, 0, n, h.headerLen, n);
    HeaderStable(b, e.raw);
    assert b == b[..n] + b[n..];
  }

  /** What Elements accepts, it tiles exactly: no gap, no overlap, every piece well formed. */
  lemma {:induction false} ElementsTile(b: Bytes)
    requires Elements(b).Ok?
    ensures AllElements(Elements(b).value) && Flat(Elements(b).value) == b
    decreases |b|
  {
    if b != [] {
      var e := FirstElement(b);
      var c := b[|e.raw|..];
      ElementsTile(c);
      var rest := Elements(c).value;
      assert ([e] + rest)[1..] == rest;
    }
  }

  lemma ElementsCons(e: Element, rest: Bytes)
    requires IsElement(e)
    ensures Elements(e.raw + rest) == (match Elements(rest) case Ok(es) => Ok([e] + es) case Err(x) => Err(x))
  {
    var b := e.raw + rest;
    ParsedHeader(e.raw);
    var h := ParseHeader(e.raw).value;
    assert b[..h.headerLen] == e.raw[..h.headerLen];
    HeaderStable(e.raw, b);
    assert b[..|e.raw|] == e.raw && b[|e.raw|..] == rest;
    assert b[h.headerLen..|e.raw|] == e.data;
  }

  /** Well-formed elements laid end to end are read back as those elements. */
  lemma {:induction false} ElementsOfFlat(es: seq<Element>)
    requires AllElements(es)
    ensures Elements(Flat(es)) == Ok(es)
  {
    if es != [] {
      var rest := Flat(es[1..]);
      ElementsOfFlat(es[1..]);
      ElementsCons(es[0], rest);
      assert es == [es[0]] + es[1..];
      calc {
        Elements(Flat(es));
        Elements(es[0].raw + rest);
        Ok([es[0]] + es[1..]);
        Ok(es);
      }
    }
  }

  /** Reading and writing elements undo each other. */
  lemma ElementsExactly(b: Bytes, es: seq<Element>)
    ensures Elements(b) == Ok(es) <==> AllElements(es) && Flat(es) == b
  {
    if Elements(b) == Ok(es) { ElementsTile(b); }
    if AllElements(es) { ElementsOfFlat(es); }
  }

  function Encoded(id: nat, payload: Bytes): Element {
    Element(id, payload, EncodeElement(id, payload))
  }

  lemma EncodedIsElement(id: nat, payload: Bytes)
    requires ValidID(id) && |payload| < TWO56 - 1
    ensures IsElement(Encoded(id, payload))
  {
    EncodedHeader(id, |payload|, MinSizeWidth(|payload|), payload);
  }

  // ---------------------------------------------------------------- unsigned integers

  /** UintWidthFrom(v, 1) is the least width that holds v. */
  lemma UintWidthIsLeast(v: nat, w: nat)
    requires 1 <= w <= 8 && v < TWO64
    ensures v < Pow256(w) <==> UintWidthFrom(v, 1) <= w
  {
    PowTable();
  }

  lemma UintRoundTrip(v: nat, w: nat)
    requires v < TWO64 && UintWidthFrom(v, 1) <= w <= 8
    ensures UintOf(BeBytes(v, w)) == Ok(v)
  {
    UintWidthIsLeast(v, w);
    BeValOfBytes(v, w);
  }
}
