/** A cluster of the clip, under its new header, read back: the walk over its children finds the
    shifted timestamp and the body, and the body's blocks. */
module MkvCluster {
  import opened Basics
  import opened Ebml
  import opened Layouts
  import opened Mkv
  import opened MkvBlocks
  import opened MkvBody

  // ---------------------------------------------------------------- encodings found in a file

  /** An encoded element, wherever it stands, gives its header and its payload. */
  lemma EncodedAt(r: Bytes, off: nat, id: nat, payload: Bytes)
    requires ValidID(id) && |payload| < TWO56 - 1 && At(r, off, EncodeElement(id, payload))
    ensures ReadHeaderAt(r, off).Ok?
    ensures var h := ReadHeaderAt(r, off).value;
      && h.id == id && h.size == |payload| && h.headerLen + |payload| == |EncodeElement(id, payload)|
      && At(r, off + h.headerLen, payload)
  {
    hide ParseHeader, ReadHeaderAt, At, EncodeID, EncodeSize, MinSizeWidth;
    var w := MinSizeWidth(|payload|);
    HeaderFound(r, off, id, |payload|, w, payload);
    AtSplit(r, off, EncodeID(id) + EncodeSize(|payload|, w), payload);
  }

  /** A header written with w size bytes, wherever it stands, is read back. */
  lemma HeaderFound(r: Bytes, off: nat, id: nat, n: nat, w: nat, rest: Bytes)
    requires ValidID(id) && n < TWO56 - 1 && MinSizeWidth(n) <= w <= 8
    requires At(r, off, EncodeID(id) + EncodeSize(n, w) + rest)
    ensures ReadHeaderAt(r, off) == Ok(Header(id, n, IDWidth(id) + w))
  {
    hide ParseHeader, At, ReadHeaderAt, EncodeSize, MinSizeWidth, ValidID;
    EncodedHeader(id, n, w, rest);
    var head := EncodeID(id) + EncodeSize(n, w);
    assert (head + rest)[..IDWidth(id) + w] == head;
    AtSplit(r, off, head, rest);
    HeaderAt(r, off, head + rest);
  }

  lemma PayloadRead(r: Bytes, off: nat, payload: Bytes)
    requires At(r, off, payload) && |payload| <= MAX_ELEMENT
    ensures ReadAt(r, off, |payload|) == Ok(payload)
  {
  }

  lemma MinSizeWidthAtMost8(n: nat)
    ensures MinSizeWidth(n) <= 8
  {
  }

  lemma UintElementAt(r: Bytes, off: nat, id: nat, v: nat)
    requires ValidID(id) && v < TWO64 && At(r, off, EncodeUint(id, v))
    ensures ReadHeaderAt(r, off).Ok?
    ensures var h := ReadHeaderAt(r, off).value;
      && h.id == id && 0 < h.size <= 8 && h.headerLen + h.size == |EncodeUint(id, v)|
      && ReadAt(r, off + h.headerLen, h.size).Ok? && UintOr0(ReadAt(r, off + h.headerLen, h.size).value) == v
  {
    hide ParseHeader, ReadHeaderAt, ReadAt, At, EncodeElement, UintWidthFrom, BeBytes;
    var payload := BeBytes(v, UintWidthFrom(v, 1));
    EncodedAt(r, off, id, payload);
    PayloadRead(r, off + ReadHeaderAt(r, off).value.headerLen, payload);
    UintRoundTrip(v, UintWidthFrom(v, 1));
  }

  // ---------------------------------------------------------------- a new cluster

  /** The child at off starts a cluster's blocks. */
  predicate StartsBlocks(r: Bytes, off: nat) {
    && ReadHeaderAt(r, off).Ok?
    && ReadHeaderAt(r, off).value.size != UNKNOWN_SIZE
    && (ReadHeaderAt(r, off).value.id == ID_SIMPLE_BLOCK || ReadHeaderAt(r, off).value.id == ID_BLOCK_GROUP)
  }

  lemma BodyStart(r: Bytes, off: nat, p: nat, end: nat, ts: nat)
    requires p <= end && (p < end ==> StartsBlocks(r, p))
    ensures ClusterFrom(r, off, p, end, Some(ts)) == Ok(Cluster(off, end, p, ts))
  {
    hide ReadHeaderAt, ReadAt;
  }

  lemma TimestampFirst(r: Bytes, off: nat, p: nat, end: nat)
    requires ReadHeaderAt(r, p).Ok? && ReadHeaderAt(r, p).value.size >= 0 && p < end
    requires ReadHeaderAt(r, p).value.id == ID_TIMESTAMP
    requires ReadAt(r, p + ReadHeaderAt(r, p).value.headerLen, ReadHeaderAt(r, p).value.size).Ok?
    ensures var h := ReadHeaderAt(r, p).value;
      ClusterFrom(r, off, p, end, None) ==
      ClusterFrom(r, off, p + h.headerLen + h.size, end, Some(UintOr0(ReadAt(r, p + h.headerLen, h.size).value)))
  {
    hide ReadHeaderAt, ReadAt, UintOr0;
  }

  lemma ClusterStart(r: Bytes, off: nat, h: Header, c: Cluster)
    requires ReadHeaderAt(r, off) == Ok(h) && h.id == ID_CLUSTER && h.size >= 0
    requires ClusterFrom(r, off, off + h.headerLen, off + h.headerLen + h.size, None) == Ok(c)
    ensures ReadCluster(r, off) == Ok(Some(c))
  {
    hide ReadHeaderAt, ClusterFrom;
  }

  lemma ShiftedBound(t: nat, origin: int)
    ensures Shifted(t, origin) < TWO64
  {
  }

  /** The cluster as the clip's reader sees it: header, then `size` bytes of blocks. */
  function Seen(o: nat, p: Planned, origin: int, size: nat): Cluster {
    var h := |NewHeader(p, origin)|;
    Cluster(o, o + h + size, o + h, Shifted(p.timestamp, origin))
  }

  lemma NewClusterReads(clip: Bytes, o: nat, p: Planned, origin: int, body: Bytes)
    requires At(clip, o, NewHeader(p, origin) + body) && Total(p.body) == |body|
    requires |TimestampElement(p, origin)| + |body| < TWO56 - 1
    requires body != [] ==> StartsBlocks(clip, o + |NewHeader(p, origin)|)
    ensures ReadCluster(clip, o) == Ok(Some(Seen(o, p, origin, |body|)))
  {
    hide ReadHeaderAt, ReadAt, At, ClusterFrom, EncodeID, EncodeSize, EncodeUint, Shifted, ReadCluster, UintOr0,
         StartsBlocks, MinSizeWidth, Total;
    var ts := TimestampElement(p, origin);
    var n := |ts| + |body|;
    var head := EncodeID(ID_CLUSTER) + EncodeSize(n, 8);
    assert U64(n) == n;
    assert NewHeader(p, origin) == head + ts;
    Assoc(head, ts, body);
    MinSizeWidthAtMost8(n);
    HeaderFound(clip, o, ID_CLUSTER, n, 8, ts + body);
    AtSplit(clip, o, head, ts + body);
    AtSplit(clip, o + 12, ts, body);
    var v := Shifted(p.timestamp, origin);
    ShiftedBound(p.timestamp, origin);
    UintElementAt(clip, o + 12, ID_TIMESTAMP, v);
    TimestampFirst(clip, o, o + 12, o + 12 + n);
    BodyStart(clip, o, o + 12 + |ts|, o + 12 + n, v);
    ClusterStart(clip, o, Header(ID_CLUSTER, n, 12), Seen(o, p, origin, |body|));
  }

  // ---------------------------------------------------------------- a body of listed blocks

  lemma ElementAt(r: Bytes, off: nat, e: Element)
    requires IsElement(e) && At(r, off, e.raw)
    ensures ReadHeaderAt(r, off) == Ok(Header(e.id, |e.data|, |e.raw| - |e.data|))
  {
    hide ParseHeader, At;
    ParsedHeader(e.raw);
    var h := |e.raw| - |e.data|;
    assert e.raw == e.raw[..h] + e.raw[h..];
    AtSplit(r, off, e.raw[..h], e.raw[h..]);
    HeaderAt(r, off, e.raw);
  }

  lemma ListedStart(clip: Bytes, off: nat, r: Bytes, keep: seq<Block>, ts: nat, base: Option<int>, ts': nat,
          origin: int)
    requires AllStand(r, keep, ts) && Fits(keep, ts, base, ts', origin) && keep != []
    requires At(clip, off, Flat(NewElements(r, keep, base)))
    ensures StartsBlocks(clip, off)
  {
    hide ReadHeaderAt, ParseBlock, ElementOf, IsElement, At, NewRaw, Stands, I64;
    var e := ElementOf(NewRaw(r, keep[0], base));
    NewBlock(r, keep[0], ts, base, off, ts', origin);
    TimestampPlace(e, off, ts', keep[0].(off := off, time := keep[0].time - origin));
    AtSplit(clip, off, e.raw, Flat(NewElements(r, keep[1..], base)));
    ElementAt(clip, off, e);
  }

  lemma BlocksFound(clip: Bytes, c: Cluster, kids: seq<Element>)
    requires AllElements(kids) && forall i :: 0 <= i < |kids| ==> |kids[i].data| <= |kids[i].raw|
    requires At(clip, c.blocksOff, Flat(kids)) && c.end == c.blocksOff + |Flat(kids)| && |Flat(kids)| <= MAX_ELEMENT
    ensures ReadBlocks(clip, c) == BlocksIn(kids, c.blocksOff, c.timestamp)
  {
    hide At, Flat, Elements, IsElement, BlocksIn, ReadAt;
    PayloadRead(clip, c.blocksOff, Flat(kids));
    ElementsOfFlat(kids);
  }

  lemma ListedBlocks(clip: Bytes, c: Cluster, r: Bytes, keep: seq<Block>, ts: nat, base: Option<int>, origin: int)
    requires AllStand(r, keep, ts) && Fits(keep, ts, base, c.timestamp, origin)
    requires var body := Flat(NewElements(r, keep, base));
      At(clip, c.blocksOff, body) && c.end == c.blocksOff + |body| && |body| <= MAX_ELEMENT
    ensures ReadBlocks(clip, c) == Ok(Moved(keep, c.blocksOff, -origin))
  {
    hide *;
    NewBlocksRead(r, keep, ts, base, c.blocksOff, c.timestamp, origin);
    BlocksFound(clip, c, NewElements(r, keep, base));
  }

  // ---------------------------------------------------------------- a body referenced whole

  /** A nonempty run of blocks starts with a block's header. */
  lemma {:induction false} BlocksStart(r: Bytes, off: nat, p: nat, end: nat, ts: Option<nat>)
    requires ClusterFrom(r, off, p, end, ts).Ok?
    ensures var c := ClusterFrom(r, off, p, end, ts).value; c.blocksOff < c.end ==> StartsBlocks(r, c.blocksOff)
    decreases end - p
  {
    hide ReadHeaderAt, ReadAt, UintOr0;
    if p < end {
      var h := ReadHeaderAt(r, p).value;
      HeaderBounds(r, p);
      var next := p + h.headerLen + h.size;
      if h.id == ID_TIMESTAMP {
        BlocksStart(r, off, next, end, Some(UintOr0(ReadAt(r, p + h.headerLen, h.size).value)));
      } else if h.id != ID_SIMPLE_BLOCK && h.id != ID_BLOCK_GROUP {
        BlocksStart(r, off, next, end, ts);
      }
    }
  }

  lemma ClusterBlocksStart(r: Bytes, off: nat)
    requires ReadCluster(r, off).Ok? && ReadCluster(r, off).value.Some?
    ensures var c := ReadCluster(r, off).value.value; c.blocksOff < c.end ==> StartsBlocks(r, c.blocksOff)
  {
    hide ReadHeaderAt, ClusterFrom, StartsBlocks;
    var h := ReadHeaderAt(r, off).value;
    HeaderBounds(r, off);
    BlocksStart(r, off, off + h.headerLen, off + h.headerLen + h.size, None);
  }

  /** m one bits. */
  function Ones(m: nat): nat {
    if m == 0 then 0 else 2 * Ones(m - 1) + 1
  }

  lemma {:induction false} OnesBytes(m: nat, w: nat, j: nat)
    requires j < w && 8 * (w - j) <= m
    ensures BeBytes(Ones(m), w)[j] == 255
  {
    assert Ones(m) == 4 * Ones(m - 2) + 3 == 16 * Ones(m - 4) + 15;
    assert Ones(m - 4) == 4 * Ones(m - 6) + 3 == 16 * Ones(m - 8) + 15;
    assert Ones(m) % 256 == 255 && Ones(m) / 256 == Ones(m - 8);
    if j < w - 1 { OnesBytes(m - 8, w - 1, j); }
  }

  /** Every byte of the reserved size but the first is 0xFF. */
  lemma UnknownBytes(w: nat, j: nat)
    requires 1 <= j < w <= 8
    ensures EncodeSize(Pow128(w) - 1, w)[j] == 255
  {
    hide BeBytes, EncodeSize, BeVal;
    OnesOfSize(w);
    EncodedSizeValue(Pow128(w) - 1, w);
    OnesBytes(7 * w + 1, w, j);
  }

  lemma SevenMoreOnes(n: nat)
    ensures Ones(n + 7) == 128 * Ones(n) + 127
  {
    assert Ones(n + 2) == 4 * Ones(n) + 3;
    assert Ones(n + 4) == 4 * Ones(n + 2) + 3;
    assert Ones(n + 6) == 4 * Ones(n + 4) + 3;
  }

  lemma {:induction false} OnesOfSize(w: nat)
    ensures Ones(7 * w + 1) == 2 * Pow128(w) - 1
  {
    if w > 0 {
      OnesOfSize(w - 1);
      SevenMoreOnes(7 * (w - 1) + 1);
    }
  }

  /** Size bytes that break off and go on with a cluster's ID still give a known size. */
  lemma BrokenOffSize(s: Bytes, t: Bytes, n: nat)
    requires DecodeSize(s).Ok? && n < DecodeSize(s).value.1 && n <= |t| && t[..n] == s[..n]
    requires n + 12 <= |t| && t[n] == 0x1F && t[n + 1] == 0x43
    ensures DecodeSize(t).Ok? && DecodeSize(t).value.0 >= 0
  {
    hide BeVal, BeBytes, Pow128, Pow256;
    var w := DecodeSize(s).value.1;
    DecodeSizeShape(s, w);
    if n > 0 { assert t[..n][0] == s[..n][0]; }
    var w' := if n == 0 then 4 else w;
    DecodeSizeShape(t, w');
    var j := if n == 0 then 1 else n;
    DecodeSizeUnknown(t, w');
    UnknownBytes(w', j);
    assert t[..w'][j] == t[j];
  }

  /** The bytes of a whole body, followed by the next cluster's header, start blocks again: even when
      the first block's header runs over the end of the body. */
  lemma WholeStart(clip: Bytes, o: nat, r: Bytes, off: nat, n: nat, rest: Bytes)
    requires StartsBlocks(r, off) && 0 < n && off + n <= |r|
    requires At(clip, o, r[off..off + n] + EncodeID(ID_CLUSTER) + rest) && |rest| >= 8
    ensures StartsBlocks(clip, o)
  {
    hide *;
    WholeBytes(clip, o, r, off, n, rest);
    StartsHeader(r, off);
    var b, c := r[off..], clip[o..];
    SplitHeader(b, ParseHeader(b).value.id);
    OneByteID(b, ParseHeader(b).value.id);
    SubSlice(b, 0, n, 0, 1);
    SubSlice(c, 0, n, 0, 1);
    IDStable(b, c, 1);
    SizeGoesOn(b, c, n);
    JoinHeader(c);
    StartsHeader(clip, o);
  }

  lemma StartsHeader(r: Bytes, off: nat)
    requires off < |r|
    ensures StartsBlocks(r, off) <==>
      var h := ParseHeader(r[off..]);
      h.Ok? && h.value.size >= 0 && (h.value.id == ID_SIMPLE_BLOCK || h.value.id == ID_BLOCK_GROUP)
  {
    hide ParseHeader, ReadHeaderAt;
    WindowSuffices(r, off);
    ParsedHeader(r[off..]);
  }

  lemma WholeBytes(clip: Bytes, o: nat, r: Bytes, off: nat, n: nat, rest: Bytes)
    requires 0 < n && off + n <= |r| && |rest| >= 8
    requires At(clip, o, r[off..off + n] + EncodeID(ID_CLUSTER) + rest)
    ensures o + n + 12 <= |clip| && clip[o..][..n] == r[off..][..n]
    ensures clip[o..][n..n + 4] == [0x1F, 0x43, 0xB6, 0x75]
  {
    hide EncodeID;
    var body := r[off..off + n];
    ClusterIDBytes();
    AtSplit(clip, o, body + EncodeID(ID_CLUSTER), rest);
    AtSplit(clip, o, body, EncodeID(ID_CLUSTER));
    SubSlice(clip, o, |clip|, 0, n);
    SubSlice(clip, o, |clip|, n, n + 4);
    SubSlice(r, off, |r|, 0, n);
    assert clip[o..|clip|] == clip[o..] && r[off..|r|] == r[off..];
  }

  lemma ClusterIDBytes()
    ensures EncodeID(ID_CLUSTER) == [0x1F, 0x43, 0xB6, 0x75]
  {
  }

  lemma SplitHeader(b: Bytes, id: nat)
    requires ParseHeader(b).Ok? && ParseHeader(b).value.id == id && ParseHeader(b).value.size >= 0
    ensures DecodeID(b).Ok? && DecodeID(b).value.0 == id && DecodeID(b).value.1 <= |b|
    ensures DecodeSize(b[DecodeID(b).value.1..]).Ok? && DecodeSize(b[DecodeID(b).value.1..]).value.0 >= 0
  {
    hide DecodeSize;
  }

  lemma JoinHeader(b: Bytes)
    requires DecodeID(b).Ok? && DecodeID(b).value.1 <= |b| && DecodeSize(b[DecodeID(b).value.1..]).Ok?
    requires DecodeSize(b[DecodeID(b).value.1..]).value.0 >= 0
    ensures ParseHeader(b).Ok? && ParseHeader(b).value.id == DecodeID(b).value.0 && ParseHeader(b).value.size >= 0
  {
    hide DecodeSize, DecodeID;
  }

  lemma OneByteID(b: Bytes, id: nat)
    requires DecodeID(b).Ok? && DecodeID(b).value.0 == id && (id == ID_SIMPLE_BLOCK || id == ID_BLOCK_GROUP)
    ensures DecodeID(b).value.1 == 1
  {
    hide DecodeID;
    DecodeIDAccepts(b, id, DecodeID(b).value.1);
  }

  lemma SizeGoesOn(b: Bytes, c: Bytes, n: nat)
    requires 0 < n <= |b| && n + 12 <= |c| && c[..n] == b[..n]
    requires c[n..n + 4] == [0x1F, 0x43, 0xB6, 0x75]
    requires DecodeSize(b[1..]).Ok? && DecodeSize(b[1..]).value.0 >= 0
    ensures DecodeSize(c[1..]).Ok? && DecodeSize(c[1..]).value.0 >= 0
  {
    hide DecodeSize;
    var w := DecodeSize(b[1..]).value.1;
    if w <= n - 1 {
      SubSlice(b, 0, n, 1, 1 + w);
      SubSlice(c, 0, n, 1, 1 + w);
      assert b[1..][..w] == b[1..1 + w] && c[1..][..w] == c[1..1 + w];
      SizeStable(b[1..], c[1..], w);
    } else {
      SubSlice(b, 0, n, 1, n);
      SubSlice(c, 0, n, 1, n);
      assert b[1..][..n - 1] == b[1..n] && c[1..][..n - 1] == c[1..n];
      assert c[1..][n - 1] == c[n..n + 4][0] && c[1..][n] == c[n..n + 4][1];
      BrokenOffSize(b[1..], c[1..], n - 1);
    }
  }
}
