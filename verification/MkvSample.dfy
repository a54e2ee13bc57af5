/** Small Matroska files, written out: one video track, a few clusters of blocks, and cues that point
    wherever they are told to. */
module MkvSample {
  import opened Basics
  import opened Ebml
  import opened Mkv
  import opened MkvBlocks
  import opened MkvChildren
  import opened MkvCluster
  import opened MkvFiles
  import opened MkvImage
  import opened MkvMeta
  import opened MkvReopen
  import opened MkvCues
  import opened MkvOpen

  // ---------------------------------------------------------------- the file

  /** A cluster: its timestamp and its blocks. */
  datatype Piece = Piece(ts: nat, blocks: seq<Element>)

  /** A SimpleBlock of track 1, `rel` ticks after its cluster, without frames. */
  function BlockAt(rel: nat): Element
    requires rel < 128
  {
    Encoded(ID_SIMPLE_BLOCK, [129, 0, rel, 128])
  }

  function Track(): Element { Encoded(ID_TRACK_ENTRY, EncodeUint(ID_TRACK_NUMBER, 1) + EncodeUint(ID_TRACK_TYPE, 1)) }

  const ID_POSITION: nat := 0xA7

  /** What stands in front of a cluster's blocks: a checksum, the timestamp, a position. */
  function PieceHead(ts: nat): seq<Element> {
    [Encoded(ID_CRC32, [0, 0, 0, 0]), UintElement(ID_TIMESTAMP, ts), Encoded(ID_POSITION, [0])]
  }

  function PieceBytes(p: Piece): Bytes {
    EncodeElement(ID_CLUSTER, Flat(PieceHead(p.ts)) + Flat(p.blocks))
  }

  function Pieces(ps: seq<Piece>): Bytes {
    if ps == [] then [] else PieceBytes(ps[0]) + Pieces(ps[1..])
  }

  function CueBytes(cues: seq<NewCue>, at: seq<int>): Bytes { Flat(CueElements(cues, 1, at)) }

  /** The elements in front of the clusters: an empty SeekHead, a gap, an empty Info, one track, the cues. */
  function FrontElements(cues: seq<NewCue>, at: seq<int>): seq<Element> {
    [Encoded(ID_SEEK_HEAD, []), Encoded(ID_VOID, [0, 0]), Encoded(ID_INFO, []), Encoded(ID_TRACKS, Track().raw),
     Encoded(ID_CUES, CueBytes(cues, at))]
  }

  function Front(cues: seq<NewCue>, at: seq<int>): Bytes { Flat(FrontElements(cues, at)) }

  function EbmlBytes(): Bytes { EncodeElement(ID_EBML, []) }

  function FileOf(cues: seq<NewCue>, at: seq<int>, ps: seq<Piece>): Bytes {
    EbmlBytes() + (EncodeID(ID_SEGMENT) + EncodeSize(|Front(cues, at)| + |Pieces(ps)|, 8)) + Front(cues, at) +
      Pieces(ps)
  }

  /** Where the Segment payload starts, where the cues stand, and where the first cluster does. */
  function PayloadPlace(): nat { |EbmlBytes()| + 12 }

  function InfoPlace(): nat { |EncodeElement(ID_SEEK_HEAD, [])| + |EncodeElement(ID_VOID, [0, 0])| }

  function TracksPlace(): nat { InfoPlace() + |EncodeElement(ID_INFO, [])| }

  function CuesPlace(): nat { TracksPlace() + |EncodeElement(ID_TRACKS, Track().raw)| }

  function FirstPlace(cues: seq<NewCue>): nat { |Front(cues, [])| }

  // ---------------------------------------------------------------- its parts are well formed

  lemma TrackOk()
    ensures IsElement(Track()) && |Track().raw| <= 52 && VideoIn([Track()], 0) == Ok(1)
  {
    hide EncodeElement, IsElement, BeBytes, UintWidthFrom, Elements, UintOr0, LastData;
    var a, b := UintElement(ID_TRACK_NUMBER, 1), UintElement(ID_TRACK_TYPE, 1);
    UintElementOk(ID_TRACK_NUMBER, 1);
    UintElementOk(ID_TRACK_TYPE, 1);
    TwoElements(a, b);
    LastOfTwo(a, b, ID_TRACK_NUMBER);
    LastOfTwo(a, b, ID_TRACK_TYPE);
    EncodedLengthBound(ID_TRACK_NUMBER, BeBytes(1, UintWidthFrom(1, 1)));
    EncodedLengthBound(ID_TRACK_TYPE, BeBytes(1, UintWidthFrom(1, 1)));
    EncodedIsElement(ID_TRACK_ENTRY, a.raw + b.raw);
    EncodedLengthBound(ID_TRACK_ENTRY, a.raw + b.raw);
    assert Track() == Encoded(ID_TRACK_ENTRY, a.raw + b.raw);
    assert [Track()][1..] == [];
    assert VideoIn([], 1) == Ok(1);
  }

  lemma BlockAtOk(rel: nat)
    requires rel < 128
    ensures IsElement(BlockAt(rel)) && |BlockAt(rel).data| <= |BlockAt(rel).raw| <= 16 && BlockAt(rel).raw != []
    ensures BlockAt(rel).id == ID_SIMPLE_BLOCK
  {
    hide EncodeElement, IsElement;
    EncodedIsElement(ID_SIMPLE_BLOCK, [129, 0, rel, 128]);
    EncodedLengthBound(ID_SIMPLE_BLOCK, [129, 0, rel, 128]);
  }

  /** It parses as a block of track 1 at its time. */
  lemma BlockAtParses(rel: nat, off: nat, ts: nat) returns (b: Block)
    requires rel < 128
    ensures |BlockAt(rel).data| <= |BlockAt(rel).raw| && ParseBlock(BlockAt(rel), off, ts) == Ok(Some(b))
    ensures b.track == 1 && b.time == I64(ts) + rel
  {
    hide EncodeElement, I64, BeVal, IsElement;
    BlockAtOk(rel);
    var data: Bytes := [129, 0, rel, 128];
    TrackOne(data);
    TwoByteTime(data, rel);
    TwoBytes(data[1..3]);
    b := ParseBlock(BlockAt(rel), off, ts).value.value;
  }

  lemma TrackOne(data: Bytes)
    requires |data| == 4 && data[0] == 129
    ensures DecodeSize(data) == Ok((1, 1))
  {
    assert data[..1] == [129] && [129][..0] == [];
    assert BeVal(data[..1]) == 256 * BeVal([]) + 129;
  }

  lemma TwoByteTime(data: Bytes, rel: nat)
    requires |data| == 4 && data[1] == 0 && data[2] == rel
    ensures BeVal(data[1..3]) == rel
  {
    var t := data[1..3];
    assert t[..1] == [0] && [0][..0] == [];
    assert BeVal([0]) == 256 * BeVal([]) + 0;
  }

  predicate PieceOk(p: Piece) {
    p.ts < TWO63 && p.blocks != [] && AllElements(p.blocks) && p.blocks[0].id == ID_SIMPLE_BLOCK
      && |Flat(p.blocks)| <= 1000
  }

  function PieceCluster(o: nat, p: Piece): Cluster {
    var end := o + |PieceBytes(p)|;
    Cluster(o, end, if end >= |Flat(p.blocks)| then end - |Flat(p.blocks)| else 0, p.ts)
  }

  lemma Sizes(es: seq<Element>)
    requires AllElements(es)
    ensures forall i :: 0 <= i < |es| ==> |es[i].data| <= |es[i].raw|
  {
    forall i | 0 <= i < |es|
      ensures |es[i].data| <= |es[i].raw|
    {
      assert IsElement(es[i]);
    }
  }

  lemma PieceHeadOk(ts: nat)
    requires ts < TWO63
    ensures InFront(PieceHead(ts)) && LastUint(PieceHead(ts), ID_TIMESTAMP) == ts && !Lacks(PieceHead(ts), ID_TIMESTAMP)
    ensures |Flat(PieceHead(ts))| <= 49
  {
    hide EncodeElement, IsElement, BeBytes, UintWidthFrom, UintOr0;
    var kids := PieceHead(ts);
    EncodedIsElement(ID_CRC32, [0, 0, 0, 0]);
    EncodedIsElement(ID_POSITION, [0]);
    UintElementOk(ID_TIMESTAMP, ts);
    EncodedLengthBound(ID_CRC32, [0, 0, 0, 0]);
    EncodedLengthBound(ID_POSITION, [0]);
    TimestampShort(ts);
    assert kids[1].id == ID_TIMESTAMP;
    assert LastAt(kids, ID_TIMESTAMP, 1);
    LastDataExactly(kids, ID_TIMESTAMP);
    FlatSnoc(kids[..2], kids[2]);
    FlatTwo(kids[0], kids[1]);
    assert kids == kids[..2] + [kids[2]] && kids[..2] == [kids[0], kids[1]];
  }

  /** A piece is read back as a cluster with its blocks. */
  lemma PieceReads(file: Bytes, o: nat, p: Piece)
    requires PieceOk(p) && At(file, o, PieceBytes(p))
    ensures var c := PieceCluster(o, p);
      && ReadCluster(file, o) == Ok(Some(c)) && o < c.end && c.end == o + |PieceBytes(p)| <= |file|
      && (forall i :: 0 <= i < |p.blocks| ==> |p.blocks[i].data| <= |p.blocks[i].raw|)
      && ReadBlocks(file, c) == BlocksIn(p.blocks, c.blocksOff, p.ts)
  {
    hide At, EncodeElement, EncodeUint, Flat, ReadHeaderAt, ReadAt, ReadCluster, ReadBlocks, UintOr0, PieceHead,
         InFront, IsElement, BlocksIn, LastUint, Lacks;
    var kids, head, body := PieceHead(p.ts), Flat(PieceHead(p.ts)), Flat(p.blocks);
    PieceHeadOk(p.ts);
    EncodedAt(file, o, ID_CLUSTER, head + body);
    var h := ReadHeaderAt(file, o).value;
    var q := o + h.headerLen;
    AtSplit(file, q, head, body);
    FirstBlockStarts(file, q + |head|, p);
    BlocksTakeRoom(p);
    HeaderBounds(file, q + |head|);
    ClusterRead(file, o, h, kids);
    var c := Cluster(o, q + h.size, q + |head|, p.ts);
    Sizes(p.blocks);
    BlocksFound(file, c, p.blocks);
    HeaderIsInside(file, o);
    AtEnds(file, q + |head|, body);
  }

  lemma BlocksTakeRoom(p: Piece)
    requires PieceOk(p)
    ensures |Flat(p.blocks)| > 0
  {
    hide IsElement;
    assert IsElement(p.blocks[0]);
    ElementLength(p.blocks[0]);
  }

  lemma AtEnds(file: Bytes, off: int, b: Bytes)
    requires At(file, off, b)
    ensures off + |b| <= |file|
  {
  }

  lemma HeaderIsInside(file: Bytes, o: nat)
    requires ReadHeaderAt(file, o).Ok?
    ensures 2 <= ReadHeaderAt(file, o).value.headerLen
  {
    hide ReadHeaderAt;
    HeaderBounds(file, o);
  }

  lemma TimestampShort(ts: nat)
    ensures |EncodeUint(ID_TIMESTAMP, ts)| <= 20
  {
    hide EncodeElement, BeBytes, UintWidthFrom;
    EncodedLengthBound(ID_TIMESTAMP, BeBytes(ts, UintWidthFrom(ts, 1)));
  }

  lemma FirstBlockStarts(file: Bytes, off: nat, p: Piece)
    requires PieceOk(p) && At(file, off, Flat(p.blocks))
    ensures StartsBlocks(file, off)
  {
    hide ReadHeaderAt, At, IsElement;
    var e := p.blocks[0];
    assert IsElement(e);
    Sizes(p.blocks);
    AtSplit(file, off, e.raw, Flat(p.blocks[1..]));
    ElementAt(file, off, e);
  }

  // ---------------------------------------------------------------- opening it

  /** The front written out. */
  lemma FrontBytes(cues: seq<NewCue>, at: seq<int>)
    ensures Front(cues, at) ==
      EncodeElement(ID_SEEK_HEAD, []) + EncodeElement(ID_VOID, [0, 0]) + EncodeElement(ID_INFO, [])
      + EncodeElement(ID_TRACKS, Track().raw) + EncodeElement(ID_CUES, CueBytes(cues, at))
  {
    hide EncodeElement, CueBytes, Track, Flat;
    var es := FrontElements(cues, at);
    FlatSnoc(es[..4], es[4]);
    FlatSnoc(es[..3], es[3]);
    FlatSnoc(es[..2], es[2]);
    FlatTwo(es[0], es[1]);
    assert es == es[..4] + [es[4]] && es[..4] == es[..3] + [es[3]] && es[..3] == es[..2] + [es[2]];
    assert es[..2] == [es[0], es[1]];
  }

  lemma FrontLength(cues: seq<NewCue>, at: seq<int>)
    ensures |Front(cues, at)| == FirstPlace(cues) == CuesPlace() + |EncodeElement(ID_CUES, CueBytes(cues, at))|
    ensures |CueBytes(cues, at)| <= 84 * |cues| && CuesPlace() <= 102 && FirstPlace(cues) <= 114 + 84 * |cues|
  {
    hide EncodeElement, CueElements, Flat, Track, Front;
    FrontBytes(cues, at);
    FrontBytes(cues, []);
    CueElementsLength(cues, 1, at, []);
    CueBytesBound(cues, at);
    EncodedLength(ID_CUES, CueBytes(cues, at), CueBytes(cues, []));
    TrackOk();
    EncodedLengthBound(ID_SEEK_HEAD, []);
    EncodedLengthBound(ID_VOID, [0, 0]);
    EncodedLengthBound(ID_INFO, []);
    EncodedLengthBound(ID_TRACKS, Track().raw);
    EncodedLengthBound(ID_CUES, CueBytes(cues, []));
  }

  lemma CuePointBound(time: nat, video: nat, pos: int)
    ensures |CueElement(time, video, pos).raw| <= 84
  {
    hide EncodeElement, UintWidthFrom, BeBytes;
    EncodedLengthBound(ID_CUE_TRACK, BeBytes(video, UintWidthFrom(video, 1)));
    EncodedLengthBound(ID_CUE_CLUSTER_POSITION, BeBytes(U64(pos), 8));
    EncodedLengthBound(ID_CUE_TRACK_POSITIONS, CueTarget(video, pos));
    EncodedLengthBound(ID_CUE_TIME, BeBytes(time, UintWidthFrom(time, 1)));
    EncodedLengthBound(ID_CUE_POINT, EncodeUint(ID_CUE_TIME, time) +
      EncodeElement(ID_CUE_TRACK_POSITIONS, CueTarget(video, pos)));
  }

  lemma {:induction false} CueBytesBound(cues: seq<NewCue>, at: seq<int>)
    ensures |Flat(CueElements(cues, 1, at))| <= 84 * |cues|
  {
    hide CueElement, OffsetOf;
    if cues != [] {
      CueBytesBound(cues[1..], at);
      CuePointBound(cues[0].time, 1, OffsetOf(at, cues[0].cluster));
      var e, es := CueElement(cues[0].time, 1, OffsetOf(at, cues[0].cluster)), CueElements(cues[1..], 1, at);
      assert ([e] + es)[1..] == es;
    }
  }

  lemma FilePlaces(cues: seq<NewCue>, at: seq<int>, ps: seq<Piece>)
    ensures var file := FileOf(cues, at, ps); var s := PayloadPlace();
      && At(file, 0, EbmlBytes())
      && At(file, |EbmlBytes()|, EncodeID(ID_SEGMENT) + EncodeSize(|Front(cues, at)| + |Pieces(ps)|, 8))
      && At(file, s, Front(cues, at)) && At(file, s + InfoPlace(), EncodeElement(ID_INFO, []))
      && At(file, s + TracksPlace(), EncodeElement(ID_TRACKS, Track().raw))
      && At(file, s + CuesPlace(), EncodeElement(ID_CUES, CueBytes(cues, at)))
      && At(file, s + FirstPlace(cues), Pieces(ps)) && |file| == s + FirstPlace(cues) + |Pieces(ps)|
  {
    hide At, EncodeElement, EncodeID, EncodeSize, CueBytes, Pieces, Track, Front;
    var file := FileOf(cues, at, ps);
    var e, g := EbmlBytes(), EncodeID(ID_SEGMENT) + EncodeSize(|Front(cues, at)| + |Pieces(ps)|, 8);
    var a, v, b := EncodeElement(ID_SEEK_HEAD, []), EncodeElement(ID_VOID, [0, 0]), EncodeElement(ID_INFO, []);
    var t, c := EncodeElement(ID_TRACKS, Track().raw), EncodeElement(ID_CUES, CueBytes(cues, at));
    FrontBytes(cues, at);
    FrontLength(cues, at);
    SegmentLength(|Front(cues, at)| + |Pieces(ps)|);
    WholeAt(file);
    AtSplit(file, 0, e + g + Front(cues, at), Pieces(ps));
    AtSplit(file, 0, e + g, Front(cues, at));
    AtSplit(file, 0, e, g);
    AtSplit(file, |e + g|, a + v + b + t, c);
    AtSplit(file, |e + g|, a + v + b, t);
    AtSplit(file, |e + g|, a + v, b);
  }

  lemma SegmentLength(n: nat)
    ensures |EncodeID(ID_SEGMENT) + EncodeSize(n, 8)| == 12
  {
    hide EncodeSize;
  }

  /** What opening the file gives. */
  function Opened(cues: seq<NewCue>, at: seq<int>, ps: seq<Piece>): Meta {
    var n := |FileOf(cues, at, ps)|;
    Meta(n, EbmlBytes(), PayloadPlace(), n, 1000000, [], [], [Track()], 1, None, PayloadPlace() + FirstPlace(cues),
      CuesOut(cues, PayloadPlace(), at))
  }

  lemma EbmlOk()
    ensures HeaderOk(EbmlBytes()) && 0 < |EbmlBytes()| <= 12
  {
    hide EncodeElement, ParseHeader;
    EncodedIsElement(ID_EBML, []);
    EncodedLengthBound(ID_EBML, []);
    ParsedHeader(EncodeElement(ID_EBML, []));
  }

  lemma {:induction false} SampleOpens(cues: seq<NewCue>, at: seq<int>, ps: seq<Piece>)
    requires ps != [] && PieceOk(ps[0]) && |Pieces(ps)| < 100000 && 0 < |cues| < 100
    requires Reachable(cues, at, |FileOf(cues, at, ps)|) && Sorted(CuesOut(cues, PayloadPlace(), at))
    ensures OpenMeta(FileOf(cues, at, ps)) == Ok(Opened(cues, at, ps))
  {
    hide At, EncodeElement, EncodeID, EncodeSize, CueBytes, Pieces, Track, OpenMeta, ReadHeaderAt, FromFound, Finds,
         EbmlBytes, FileOf, Front, Reachable, Sorted, CuesOut, HeaderOk, PieceOk, FirstPlace, CuesPlace, Fronted,
         FrontElements, InfoPlace, TracksPlace;
    var file := FileOf(cues, at, ps);
    var seg := Header(ID_SEGMENT, |Front(cues, at)| + |Pieces(ps)|, 12);
    FilePlaces(cues, at, ps);
    FrontLength(cues, at);
    SampleFronted(cues, at, ps);
    var f := OpenWalks(file, EbmlBytes(), seg, FrontElements(cues, at));
    FrontFinds(cues, at, f);
    FrontIs(cues, at);
    SampleParses(cues, at, ps, f);
  }

  lemma FrontIs(cues: seq<NewCue>, at: seq<int>)
    ensures Flat(FrontElements(cues, at)) == Front(cues, at)
  {
  }

  /** What the walk finds in the front. */
  lemma FrontFinds(cues: seq<NewCue>, at: seq<int>, f: Found)
    requires Finds(FrontElements(cues, at), PayloadPlace(), PayloadPlace(), f)
    ensures var s := PayloadPlace();
      f == Found(Some(s + InfoPlace()), Some(s + TracksPlace()), Some(s + CuesPlace()), None)
  {
    hide EncodeElement, CueBytes, Track, Flat, PayloadPlace, InfoPlace, TracksPlace, CuesPlace, PlaceIn, LastStands;
    var es, s := FrontElements(cues, at), PayloadPlace();
    FrontPlaces(cues, at);
    assert LastAt(es, ID_INFO, 2) && LastAt(es, ID_TRACKS, 3) && LastAt(es, ID_CUES, 4);
    assert Lacks(es, ID_ATTACHMENTS) && !Lacks(es, ID_CUES);
    StandsWhere(es, s, ID_INFO, 2, f.info);
    StandsWhere(es, s, ID_TRACKS, 3, f.tracks);
    StandsWhere(es, s, ID_CUES, 4, f.cues);
  }

  lemma FrontPlaces(cues: seq<NewCue>, at: seq<int>)
    ensures var es := FrontElements(cues, at); var s := PayloadPlace();
      && PlaceIn(es, s, 2) == s + InfoPlace() && PlaceIn(es, s, 3) == s + TracksPlace()
      && PlaceIn(es, s, 4) == s + CuesPlace()
  {
    hide EncodeElement, CueBytes, Track, Flat, PayloadPlace;
    var es := FrontElements(cues, at);
    FlatSnoc(es[..3], es[3]);
    FlatSnoc(es[..2], es[2]);
    FlatTwo(es[0], es[1]);
    assert es[..4] == es[..3] + [es[3]] && es[..3] == es[..2] + [es[2]] && es[..2] == [es[0], es[1]];
  }

  lemma FrontTop(cues: seq<NewCue>, at: seq<int>)
    requires |cues| < 100
    ensures Top(FrontElements(cues, at))
  {
    hide EncodeElement, CueBytes, Track, IsElement, Front;
    FrontLength(cues, at);
    TrackOk();
    EncodedIsElement(ID_SEEK_HEAD, []);
    EncodedIsElement(ID_VOID, [0, 0]);
    EncodedIsElement(ID_INFO, []);
    EncodedIsElement(ID_TRACKS, Track().raw);
    EncodedIsElement(ID_CUES, CueBytes(cues, at));
  }

  lemma SampleFronted(cues: seq<NewCue>, at: seq<int>, ps: seq<Piece>)
    requires ps != [] && PieceOk(ps[0]) && |Pieces(ps)| < 100000 && 0 < |cues| < 100
    ensures Fronted(FileOf(cues, at, ps), EbmlBytes(), Header(ID_SEGMENT, |Front(cues, at)| + |Pieces(ps)|, 12),
      FrontElements(cues, at))
  {
    hide At, EncodeElement, EncodeID, EncodeSize, CueBytes, Track, ReadHeaderAt, EbmlBytes, FileOf, HeaderOk, PieceOk,
         PieceBytes, FirstPlace, CuesPlace, FrontElements, InfoPlace, TracksPlace, Top, ReadCluster, ReadBlocks;
    var file := FileOf(cues, at, ps);
    FilePlaces(cues, at, ps);
    FrontLength(cues, at);
    FrontTop(cues, at);
    EbmlOk();
    SegmentHeader(file, |EbmlBytes()|, |Front(cues, at)| + |Pieces(ps)|);
    var first := PayloadPlace() + FirstPlace(cues);
    AtSplit(file, first, PieceBytes(ps[0]), Pieces(ps[1..]));
    PieceReads(file, first, ps[0]);
    ClusterIsCluster(file, first);
    HeaderInside(file, first);
  }

  lemma SegmentHeader(file: Bytes, off: nat, n: nat)
    requires At(file, off, EncodeID(ID_SEGMENT) + EncodeSize(n, 8)) && n < TWO56 - 1
    ensures ReadHeaderAt(file, off) == Ok(Header(ID_SEGMENT, n, 12))
  {
    hide At, EncodeID, EncodeSize, ReadHeaderAt, MinSizeWidth;
    var g := EncodeID(ID_SEGMENT) + EncodeSize(n, 8);
    assert g + [] == g;
    MinSizeWidthAtMost8(n);
    HeaderFound(file, off, ID_SEGMENT, n, 8, []);
  }

  lemma SampleParses(cues: seq<NewCue>, at: seq<int>, ps: seq<Piece>, f: Found)
    requires var s := PayloadPlace();
      f == Found(Some(s + InfoPlace()), Some(s + TracksPlace()), Some(s + CuesPlace()), None)
    requires 0 < |cues| < 100
    requires Reachable(cues, at, |FileOf(cues, at, ps)|) && Sorted(CuesOut(cues, PayloadPlace(), at))
    ensures var file := FileOf(cues, at, ps);
      FromFound(file, EbmlBytes(), PayloadPlace(), |file|, f, PayloadPlace() + FirstPlace(cues)) ==
        Ok(Opened(cues, at, ps))
  {
    hide At, EncodeElement, CueElements, Flat, Track, FileOf, EbmlBytes, Front, Reachable, Sorted, CuesOut, ReadElement,
         Elements, ParseCues, VideoIn, IsElement, FirstPlace, CuesPlace, InfoPlace, TracksPlace;
    var file, s := FileOf(cues, at, ps), PayloadPlace();
    FilePlaces(cues, at, ps);
    FrontLength(cues, at);
    TrackOk();
    ElementRead(file, s + InfoPlace(), ID_INFO, []);
    NoElements();
    ElementRead(file, s + TracksPlace(), ID_TRACKS, Track().raw);
    OneElement(Track());
    CuesParsed(file, s + CuesPlace(), cues, 1, s, at);
  }

  lemma NoElements()
    ensures Elements([]) == Ok([]) && ScaleOf([]) == 1000000 && DurationOf([]) == []
  {
  }

  lemma OneElement(e: Element)
    requires IsElement(e)
    ensures Elements(e.raw) == Ok([e])
  {
    hide Elements, IsElement;
    FlatOne(e);
    ElementsOfFlat([e]);
  }
}
