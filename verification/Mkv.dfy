/** What internal/mkv computes, as functions on the bytes of a Matroska file: opening it,
    reading clusters and blocks, and laying out a clip (RFC 9559). */
module Mkv {
  import opened Basics
  import opened Ebml
  import opened Layouts

  /** Bounds the top-level metadata elements that are read into memory. */
  const MAX_ELEMENT: nat := 0x400_0000

  /** A video keyframe from the Cues: its ticks and its cluster's absolute offset. */
  datatype CuePoint = CuePoint(time: nat, clusterOff: nat)

  /** The parsed metadata of a file (the source's Source struct). The Duration payload stays opaque. */
  datatype Meta = Meta(
    size: nat,
    ebmlHeader: Bytes,
    segmentData: nat,
    segmentEnd: nat,
    timestampScale: nat,
    duration: Bytes,
    infoChildren: seq<Element>,
    tracksChildren: seq<Element>,
    videoTrack: nat,
    attachments: Option<(nat, nat)>,
    firstCluster: nat,
    cues: seq<CuePoint>)

  // ---------------------------------------------------------------- reading bytes

  function ReadAt(r: Bytes, off: nat, n: int): Result<Bytes> {
    if n < 0 || n > MAX_ELEMENT then Err(Unsupported)
    else if n == 0 then Ok([])
    else if off + n <= |r| then Ok(r[off..off + n])
    else Err(UnexpectedEof)
  }

  /** The payload of the element at off, which must have the given ID. */
  function ReadElement(r: Bytes, off: nat, id: nat): Result<Bytes> {
    var h :- ReadHeaderAt(r, off);
    if h.id != id then Err(Malformed) else
    if h.size == UNKNOWN_SIZE then Err(Unsupported) else
    ReadAt(r, off + h.headerLen, h.size)
  }

  /** What ReadHeaderAt returns takes up room. */
  lemma HeaderBounds(r: Bytes, off: nat)
    ensures ReadHeaderAt(r, off).Ok? ==>
      var h := ReadHeaderAt(r, off).value;
      2 <= h.headerLen <= 12 && off + h.headerLen <= |r| && ValidID(h.id) && UNKNOWN_SIZE <= h.size < TWO56 - 1
  {
    if off < |r| { ParsedHeader(r[off..if off + 12 < |r| then off + 12 else |r|]); }
  }

  // ---------------------------------------------------------------- child elements

  /** An unsigned integer payload; 0 when it is too long to be one. */
  function UintOr0(b: Bytes): nat {
    match UintOf(b)
    case Ok(v) => v
    case Err(_) => 0
  }

  /** The payload of the last child with the given ID. */
  function LastData(es: seq<Element>, id: nat): Option<Bytes> {
    if es == [] then None
    else if es[|es| - 1].id == id then Some(es[|es| - 1].data)
    else LastData(es[..|es| - 1], id)
  }

  /** The value of the last child with the given ID, 0 without one. */
  function LastUint(es: seq<Element>, id: nat): nat {
    match LastData(es, id)
    case Some(d) => UintOr0(d)
    case None => 0
  }

  // ---------------------------------------------------------------- top level

  /** What the walk over the Segment's children has found so far. */
  datatype Found = Found(info: Option<nat>, tracks: Option<nat>, cues: Option<nat>, attachments: Option<(nat, nat)>)

  /** The first Seek in es whose SeekID is want and whose position is usable. */
  function SeekIn(es: seq<Element>, want: nat): Option<nat> {
    if es == [] then None else
    var rest := SeekIn(es[1..], want);
    if es[0].id != ID_SEEK then rest else
    match Elements(es[0].data)
    case Err(_) => rest
    case Ok(kids) =>
      var pos := LastUint(kids, ID_SEEK_POSITION);
      if LastUint(kids, ID_SEEK_ID) % TWO32 == want && LastData(kids, ID_SEEK_POSITION).Some? && pos < TWO62 - 1
      then Some(pos) else rest
  }

  function SeekPosition(seekHead: Bytes, want: nat): Option<nat> {
    match Elements(seekHead)
    case Err(_) => None
    case Ok(es) => SeekIn(es, want)
  }

  /** One top-level element before the first cluster. */
  function Visit(r: Bytes, off: nat, h: Header, segmentData: nat, f: Found): Result<Found>
    requires h.size >= 0
  {
    if h.id == ID_INFO then Ok(f.(info := Some(off)))
    else if h.id == ID_TRACKS then Ok(f.(tracks := Some(off)))
    else if h.id == ID_CUES then Ok(f.(cues := Some(off)))
    else if h.id == ID_ATTACHMENTS then Ok(f.(attachments := Some((off, h.headerLen + h.size))))
    else if h.id == ID_SEEK_HEAD then
      var b :- ReadAt(r, off + h.headerLen, h.size);
      (match SeekPosition(b, ID_CUES)
       case Some(pos) => if f.cues.None? then Ok(f.(cues := Some(segmentData + pos))) else Ok(f)
       case None => Ok(f))
    else Ok(f)
  }

  /** Walks top-level elements from off up to the first cluster, whose offset comes with the findings
      (0 when the Segment ends first). */
  function WalkTop(r: Bytes, off: nat, segmentData: nat, segmentEnd: nat, f: Found): Result<(Found, nat)>
    decreases segmentEnd - off
  {
    if off >= segmentEnd then Ok((f, 0)) else
    var h :- ReadHeaderAt(r, off);
    if h.id == ID_CLUSTER then Ok((f, off)) else
    if h.size == UNKNOWN_SIZE then Err(Unsupported) else
    HeaderBounds(r, off);
    var g :- Visit(r, off, h, segmentData, f);
    WalkTop(r, off + h.headerLen + h.size, segmentData, segmentEnd, g)
  }

  function OpenMeta(r: Bytes): Result<Meta> {
    var h :- ReadHeaderAt(r, 0);
    if h.id != ID_EBML || h.size == UNKNOWN_SIZE then Err(Unsupported) else
    var ebmlHeader :- ReadAt(r, 0, h.headerLen + h.size);
    var seg :- ReadHeaderAt(r, |ebmlHeader|);
    if seg.id != ID_SEGMENT then Err(Unsupported) else
    var segmentData := |ebmlHeader| + seg.headerLen;
    var segmentEnd := SegmentEnd(segmentData, seg.size, |r|);
    MetaFrom(r, ebmlHeader, segmentData, segmentEnd)
  }

  /** The metadata of a file whose Segment payload is [segmentData, segmentEnd). */
  function MetaFrom(r: Bytes, ebmlHeader: Bytes, segmentData: nat, segmentEnd: nat): Result<Meta> {
    var (f, firstCluster) :- WalkTop(r, segmentData, segmentData, segmentEnd, Found(None, None, None, None));
    if firstCluster == 0 || f.info.None? || f.tracks.None? || f.cues.None? then Err(Unsupported) else
    var info :- ParseInfo(r, f.info.value);
    var tracks :- ParseTracks(r, f.tracks.value);
    var cues :- ParseCues(r, f.cues.value, tracks.1, segmentData);
    Ok(Meta(|r|, ebmlHeader, segmentData, segmentEnd, ScaleOf(info), DurationOf(info),
            info, tracks.0, tracks.1, f.attachments, firstCluster, cues))
  }

  function SegmentEnd(data: nat, size: int, fileSize: nat): nat {
    if size >= 0 && data + size < fileSize then data + size else fileSize
  }

  // ---------------------------------------------------------------- Info, Tracks, Cues

  function ParseInfo(r: Bytes, off: nat): Result<seq<Element>> {
    var b :- ReadElement(r, off, ID_INFO);
    Elements(b)
  }

  /** The last nonzero TimestampScale; a million without one. */
  function ScaleOf(info: seq<Element>): nat {
    if info == [] then 1000000 else
    var c := info[|info| - 1];
    if c.id == ID_TIMESTAMP_SCALE && UintOr0(c.data) > 0 then UintOr0(c.data)
    else ScaleOf(info[..|info| - 1])
  }

  function DurationOf(info: seq<Element>): Bytes {
    match LastData(info, ID_DURATION)
    case Some(d) => d
    case None => []
  }

  function ParseTracks(r: Bytes, off: nat): Result<(seq<Element>, nat)> {
    var b :- ReadElement(r, off, ID_TRACKS);
    var es :- Elements(b);
    var video :- VideoIn(es, 0);
    if video == 0 then Err(Unsupported) else Ok((es, video))
  }

  /** The number of the first video track among es, unless one was found before. */
  function VideoIn(es: seq<Element>, found: nat): Result<nat> {
    if es == [] then Ok(found)
    else if es[0].id != ID_TRACK_ENTRY then VideoIn(es[1..], found)
    else
      var kids :- Elements(es[0].data);
      VideoIn(es[1..], if LastUint(kids, ID_TRACK_TYPE) == 1 && found == 0 then LastUint(kids, ID_TRACK_NUMBER)
        else found)
  }

  function ParseCues(r: Bytes, off: nat, video: nat, segmentData: nat): Result<seq<CuePoint>> {
    var b :- ReadElement(r, off, ID_CUES);
    var points :- Elements(b);
    var cues :- CuesIn(points, video, segmentData, |r|);
    if cues == [] then Err(Unsupported) else Ok(SortCues(cues))
  }

  function CuesIn(points: seq<Element>, video: nat, segmentData: nat, size: nat): Result<seq<CuePoint>> {
    if points == [] then Ok([])
    else if points[0].id != ID_CUE_POINT then CuesIn(points[1..], video, segmentData, size)
    else
      var kids :- Elements(points[0].data);
      var here :- PositionsIn(kids, LastUint(kids, ID_CUE_TIME), video, segmentData, size);
      var rest :- CuesIn(points[1..], video, segmentData, size);
      Ok(here + rest)
  }

  /** The cue points a CuePoint's CueTrackPositions give for the video track. */
  function PositionsIn(kids: seq<Element>, t: nat, video: nat, segmentData: nat, size: nat): Result<seq<CuePoint>> {
    if kids == [] then Ok([])
    else if kids[0].id != ID_CUE_TRACK_POSITIONS then PositionsIn(kids[1..], t, video, segmentData, size)
    else
      var pos :- Elements(kids[0].data);
      var rest :- PositionsIn(kids[1..], t, video, segmentData, size);
      var cluster := LastUint(pos, ID_CUE_CLUSTER_POSITION);
      if LastUint(pos, ID_CUE_TRACK) == video && LastData(pos, ID_CUE_CLUSTER_POSITION).Some? && cluster < size
      then Ok([CuePoint(t, segmentData + cluster)] + rest)
      else Ok(rest)
  }

  /** cues by ascending time, equal times in their given order. */
  function SortCues(cues: seq<CuePoint>): seq<CuePoint> {
    if cues == [] then [] else Insert(SortCues(cues[..|cues| - 1]), cues[|cues| - 1])
  }

  /** c behind the last of the sorted cues that is not later. */
  function Insert(cues: seq<CuePoint>, c: CuePoint): seq<CuePoint> {
    if cues == [] || cues[|cues| - 1].time <= c.time then cues + [c]
    else Insert(cues[..|cues| - 1], c) + [cues[|cues| - 1]]
  }

  // ---------------------------------------------------------------- clusters and blocks

  /** One cluster element [off, end), its first block child and its timestamp. */
  datatype Cluster = Cluster(off: nat, end: nat, blocksOff: nat, timestamp: nat)

  /** The cluster at off; None when another element is there. */
  function ReadCluster(r: Bytes, off: nat): Result<Option<Cluster>> {
    var h :- ReadHeaderAt(r, off);
    if h.id != ID_CLUSTER then Ok(None) else
    if h.size == UNKNOWN_SIZE then Err(Unsupported) else
    HeaderBounds(r, off);
    var c :- ClusterFrom(r, off, off + h.headerLen, off + h.headerLen + h.size, None);
    Ok(Some(c))
  }

  /** Walks a cluster's children from p up to its first block; ts is the timestamp once met. */
  function ClusterFrom(r: Bytes, off: nat, p: nat, end: nat, ts: Option<nat>): Result<Cluster>
    decreases end - p
  {
    if p >= end then Ok(Cluster(off, end, end, if ts.Some? then ts.value else 0)) else
    var h :- ReadHeaderAt(r, p);
    if h.size == UNKNOWN_SIZE then Err(Unsupported) else
    HeaderBounds(r, p);
    var next := p + h.headerLen + h.size;
    if h.id == ID_TIMESTAMP then
      var b :- ReadAt(r, p + h.headerLen, h.size);
      ClusterFrom(r, off, next, end, Some(UintOr0(b)))
    else if h.id == ID_SIMPLE_BLOCK || h.id == ID_BLOCK_GROUP then
      if ts.None? then Err(Unsupported) else Ok(Cluster(off, end, p, ts.value))
    else if h.id == ID_ENCRYPTED_BLOCK then Err(Unsupported)
    else ClusterFrom(r, off, next, end, ts)
  }

  /** One SimpleBlock or BlockGroup: `prefix` is the element up to its 2-byte relative timestamp,
      which stands tsOff bytes into it. */
  datatype Block = Block(off: nat, len: nat, track: nat, time: int, tsOff: nat, prefix: Bytes)

  /** The block payload inside e and its offset in e.raw: a SimpleBlock's own, or that of the last
      Block of a BlockGroup. */
  function BlockData(e: Element): Result<(nat, Bytes)>
    requires |e.data| <= |e.raw|
  {
    if e.id == ID_SIMPLE_BLOCK then Ok((|e.raw| - |e.data|, e.data))
    else
      var kids :- Elements(e.data);
      match LastPlace(kids, ID_BLOCK)
      case None => Err(Unsupported)
      case Some(p) => Ok((|e.raw| - |e.data| + p.0, p.1))
  }

  /** Where, in the elements laid end to end, the payload of the last one with the given ID starts. */
  function LastPlace(es: seq<Element>, id: nat): Option<(nat, Bytes)> {
    if es == [] then None else
    var init, e := es[..|es| - 1], es[|es| - 1];
    if e.id == id && |e.data| <= |e.raw| then Some((|Flat(init)| + |e.raw| - |e.data|, e.data))
    else LastPlace(init, id)
  }

  /** The block that element e at offset off of a cluster with timestamp ts is; None for other elements. */
  function ParseBlock(e: Element, off: nat, ts: nat): Result<Option<Block>>
    requires |e.data| <= |e.raw|
  {
    if e.id == ID_ENCRYPTED_BLOCK then Err(Unsupported)
    else if e.id != ID_SIMPLE_BLOCK && e.id != ID_BLOCK_GROUP then Ok(None)
    else
      var (at, data) :- BlockData(e);
      match DecodeSize(data)
      case Err(_) => Err(Malformed)
      case Ok((track, tl)) =>
        if |data| < tl + 3 then Err(Malformed) else
        TwoBytes(data[tl..tl + 2]);
        var tsOff := at + tl;
        var rel := I16(BeVal(data[tl..tl + 2]));
        Ok(Some(Block(off, |e.raw|, U64(track), I64(ts) + rel, tsOff, if tsOff <= |e.raw| then e.raw[..tsOff] else [])))
  }

  lemma TwoBytes(s: Bytes)
    requires |s| == 2
    ensures BeVal(s) < 65536
  {
    BeValBound(s);
    PowTable();
  }

  function BlocksIn(kids: seq<Element>, off: nat, ts: nat): Result<seq<Block>>
    requires forall i :: 0 <= i < |kids| ==> |kids[i].data| <= |kids[i].raw|
  {
    if kids == [] then Ok([]) else
    var b :- ParseBlock(kids[0], off, ts);
    var rest :- BlocksIn(kids[1..], off + |kids[0].raw|, ts);
    Ok((if b.Some? then [b.value] else []) + rest)
  }

  function ReadBlocks(r: Bytes, c: Cluster): Result<seq<Block>> {
    var body :- ReadAt(r, c.blocksOff, c.end - c.blocksOff);
    var kids :- Elements(body);
    ElementsTile(body);
    BlocksIn(kids, c.blocksOff, c.timestamp)
  }

  // ---------------------------------------------------------------- choosing what to keep

  /** Walks clusters from off until one starts at or after endT; other elements are skipped. */
  function Collect(r: Bytes, off: nat, segmentEnd: nat, endT: nat, got: seq<Cluster>): Result<seq<Cluster>>
    decreases segmentEnd - off
  {
    if off >= segmentEnd then Ok(got) else
    var c :- ReadCluster(r, off);
    HeaderBounds(r, off);
    match c
    case None =>
      var h := ReadHeaderAt(r, off);
      if h.Err? || h.value.size == UNKNOWN_SIZE then Ok(got)
      else Collect(r, off + h.value.headerLen + h.value.size, segmentEnd, endT, got)
    case Some(c) =>
      if got != [] && c.timestamp >= endT then Ok(got)
      else
        ClusterEnd(r, off);
        Collect(r, c.end, segmentEnd, endT, got + [c])
  }

  /** A cluster read at off starts there, ends later, and its blocks lie inside. */
  lemma ClusterEnd(r: Bytes, off: nat)
    ensures ReadCluster(r, off).Ok? && ReadCluster(r, off).value.Some? ==>
      var c := ReadCluster(r, off).value.value;
      c.off == off && off < c.blocksOff <= c.end
  {
    if ReadCluster(r, off).Ok? && ReadCluster(r, off).value.Some? {
      var p, end := ClusterWalk(r, off);
      ClusterFromBounds(r, off, p, end, None);
    }
  }

  lemma ClusterWalk(r: Bytes, off: nat) returns (p: nat, end: nat)
    requires ReadCluster(r, off).Ok? && ReadCluster(r, off).value.Some?
    ensures off < p <= end && ClusterFrom(r, off, p, end, None) == Ok(ReadCluster(r, off).value.value)
  {
    hide ReadHeaderAt, ClusterFrom;
    HeaderBounds(r, off);
    var h := ReadHeaderAt(r, off).value;
    p, end := off + h.headerLen, off + h.headerLen + h.size;
  }

  lemma {:induction false} ClusterFromBounds(r: Bytes, off: nat, p: nat, end: nat, ts: Option<nat>)
    requires ClusterFrom(r, off, p, end, ts).Ok? && off < p && off < end
    ensures var c := ClusterFrom(r, off, p, end, ts).value;
      c.off == off && c.end == end && off < c.blocksOff <= end && (c.blocksOff < end ==> p <= c.blocksOff)
    decreases end - p
  {
    hide ClusterFrom;
    if p >= end {
      ClusterEmpty(r, off, p, end, ts);
    } else {
      var next, ts' := ClusterStep(r, off, p, end, ts);
      if ClusterFrom(r, off, p, end, ts) == ClusterFrom(r, off, next, end, ts') {
        ClusterFromBounds(r, off, next, end, ts');
      }
    }
  }

  lemma ClusterEmpty(r: Bytes, off: nat, p: nat, end: nat, ts: Option<nat>)
    requires p >= end
    ensures ClusterFrom(r, off, p, end, ts) == Ok(Cluster(off, end, end, if ts.Some? then ts.value else 0))
  {
  }

  /** One step of the walk: the blocks start here, or it goes on behind this child. */
  lemma ClusterStep(r: Bytes, off: nat, p: nat, end: nat, ts: Option<nat>) returns (next: nat, ts': Option<nat>)
    requires ClusterFrom(r, off, p, end, ts).Ok? && p < end
    ensures next > p
    ensures (ts.Some? && ClusterFrom(r, off, p, end, ts) == Ok(Cluster(off, end, p, ts.value)))
         || ClusterFrom(r, off, p, end, ts) == ClusterFrom(r, off, next, end, ts')
  {
    hide ReadHeaderAt, ReadAt, UintOr0;
    var h := ReadHeaderAt(r, p).value;
    HeaderBounds(r, p);
    next := p + h.headerLen + h.size;
    ts' := if h.id == ID_TIMESTAMP then Some(UintOr0(ReadAt(r, p + h.headerLen, h.size).value)) else ts;
  }

  function CollectClusters(r: Bytes, off: nat, segmentEnd: nat, endT: nat): Result<seq<Cluster>> {
    var got :- Collect(r, off, segmentEnd, endT, []);
    if got == [] then Err(Malformed) else Ok(got)
  }

  /** The index of the first block of the track with the given time; 0 without one. */
  function KeyIndex(blocks: seq<Block>, video: nat, keyTime: int, i: nat): nat
    requires i <= |blocks|
    decreases |blocks| - i
  {
    if i == |blocks| then 0
    else if blocks[i].track == video && blocks[i].time == keyTime then i
    else KeyIndex(blocks, video, keyTime, i + 1)
  }

  function NotBefore(blocks: seq<Block>, t: int): seq<Block> {
    if blocks == [] then []
    else (if blocks[0].time >= t then [blocks[0]] else []) + NotBefore(blocks[1..], t)
  }

  lemma {:induction false} KeyIndexInside(blocks: seq<Block>, video: nat, keyTime: int, i: nat)
    requires i <= |blocks|
    ensures KeyIndex(blocks, video, keyTime, i) <= |blocks|
    decreases |blocks| - i
  {
    if i < |blocks| { KeyIndexInside(blocks, video, keyTime, i + 1); }
  }

  /** Drops what is stored before the keyframe, and what displays before it. */
  function KeepFrom(blocks: seq<Block>, video: nat, keyTime: int): seq<Block> {
    KeyIndexInside(blocks, video, keyTime, 0);
    NotBefore(blocks[KeyIndex(blocks, video, keyTime, 0)..], keyTime)
  }

  /** Drops video from the first frame, in decode order, at or after endT, and other blocks at or after endT. */
  function KeepUntil(blocks: seq<Block>, video: nat, endT: int, videoDone: bool): seq<Block> {
    if blocks == [] then [] else
    var b := blocks[0];
    var done := videoDone || (b.track == video && b.time >= endT);
    var keep := if b.track == video then !done else b.time < endT;
    (if keep then [b] else []) + KeepUntil(blocks[1..], video, endT, done)
  }

  function BlockParts(blocks: seq<Block>): seq<Part> {
    if blocks == [] then [] else
    var b := blocks[|blocks| - 1];
    AppendPart(BlockParts(blocks[..|blocks| - 1]), Range(b.off, b.len))
  }

  /** The two bytes of a signed 16-bit value. */
  function Be16(v: int): Bytes {
    [U64(v) / 256 % 256, U64(v) % 256]
  }

  /** blocks with their relative timestamps rewritten against base; the rest is referenced. */
  function RebasedParts(blocks: seq<Block>, base: int): Result<seq<Part>> {
    if blocks == [] then Ok([]) else
    var parts :- RebasedParts(blocks[..|blocks| - 1], base);
    var b := blocks[|blocks| - 1];
    var rel := b.time - base;
    if rel < -32768 || rel > 32767 then Err(Unsupported) else
    Ok(AppendPart(AppendPart(parts, Literal(b.prefix + Be16(rel))), Range(b.off + b.tsOff + 2, b.len - b.tsOff - 2)))
  }

  // ---------------------------------------------------------------- planning a clip

  /** A cluster of the clip: the source cluster, its timestamp before shifting, and its new body. */
  datatype Planned = Planned(c: Cluster, timestamp: nat, body: seq<Part>)

  /** The number of cues, from i on, up to the first one later than t. */
  function FirstAfter(cues: seq<CuePoint>, t: nat): nat {
    if cues == [] || cues[0].time > t then 0 else 1 + FirstAfter(cues[1..], t)
  }

  lemma {:induction false} FirstAfterInside(cues: seq<CuePoint>, t: nat)
    ensures FirstAfter(cues, t) <= |cues|
  {
    if cues != [] && cues[0].time <= t { FirstAfterInside(cues[1..], t); }
  }

  /** The last cue at or before t, or the first cue when none is. */
  function KeyCue(cues: seq<CuePoint>, t: nat): CuePoint
    requires cues != []
  {
    FirstAfterInside(cues, t);
    if FirstAfter(cues, t) == 0 then cues[0] else cues[FirstAfter(cues, t) - 1]
  }

  /** The first cluster's body: from the keyframe on, and up to endT when it is the only cluster. */
  function FirstKept(blocks: seq<Block>, video: nat, key: CuePoint, endT: nat, only: bool): seq<Block> {
    var keep := KeepFrom(blocks, video, I64(key.time));
    if only then KeepUntil(keep, video, I64(endT), false) else keep
  }

  function FirstBody(c: Cluster, keep: seq<Block>, key: CuePoint): Result<seq<Part>> {
    if c.timestamp == key.time then Ok(BlockParts(keep)) else RebasedParts(keep, I64(key.time))
  }

  function Middle(cs: seq<Cluster>): seq<Planned> {
    if cs == [] then []
    else [Planned(cs[0], cs[0].timestamp, [Range(cs[0].blocksOff, cs[0].end - cs[0].blocksOff)])] + Middle(cs[1..])
  }

  function PlanClusters(r: Bytes, video: nat, key: CuePoint, endT: nat, cs: seq<Cluster>): Result<seq<Planned>>
    requires cs != []
  {
    var n := |cs|;
    var firstBlocks :- ReadBlocks(r, cs[0]);
    var body :- FirstBody(cs[0], FirstKept(firstBlocks, video, key, endT, n == 1), key);
    var first := Planned(cs[0], key.time, body);
    if n == 1 then Ok([first]) else
    var lastBlocks :- ReadBlocks(r, cs[n - 1]);
    var last := Planned(cs[n - 1], cs[n - 1].timestamp, BlockParts(KeepUntil(lastBlocks, video, I64(endT), false)));
    Ok([first] + Middle(cs[1..n - 1]) + [last])
  }

  /** No cluster's timestamp is before the keyframe. */
  predicate NoneBefore(plan: seq<Planned>, origin: int) {
    forall i :: 0 <= i < |plan| ==> I64(plan[i].timestamp) >= origin
  }

  /** The clusters of the clip of ticks [startT, endT), and the keyframe it starts at. */
  function PlanClip(r: Bytes, m: Meta, startT: nat, endT: nat): Result<(CuePoint, seq<Planned>)>
    requires m.cues != []
  {
    var key := KeyCue(m.cues, startT);
    if key.time >= endT then Err(OutOfRange) else
    var cs :- CollectClusters(r, key.clusterOff, m.segmentEnd, endT);
    var plan :- PlanClusters(r, m.videoTrack, key, endT, cs);
    if NoneBefore(plan, I64(key.time)) then Ok((key, plan)) else Err(Unsupported)
  }

  // ---------------------------------------------------------------- assembling a clip

  /** Elements of the source Info that do not describe the clip. */
  predicate DroppedInfo(id: nat) {
    id in {ID_CRC32, ID_VOID, ID_DURATION, ID_TITLE, 0x73A4, 0x3CB923, 0x3EB923, 0x3C83AB, 0x3E83BB, 0x4461, 0x7384,
      0x6924}
  }

  function KeptInfo(es: seq<Element>): seq<Element> {
    if es == [] then [] else (if DroppedInfo(es[0].id) then [] else [es[0]]) + KeptInfo(es[1..])
  }

  function KeptTracks(es: seq<Element>): seq<Element> {
    if es == [] then []
    else (if es[0].id != ID_CRC32 && es[0].id != ID_VOID then [es[0]] else []) + KeptTracks(es[1..])
  }

  /** The clip's Info children: the source's that still hold, the duration (as stored) and the title. */
  function NewInfo(m: Meta, duration: Bytes, title: Bytes): seq<Element> {
    KeptInfo(m.infoChildren) + [Encoded(ID_DURATION, duration), Encoded(ID_TITLE, title)]
  }

  /** uint64 subtraction. */
  function Shifted(t: nat, origin: int): nat { U64(t - U64(origin)) }

  function TimestampElement(p: Planned, origin: int): Bytes {
    EncodeUint(ID_TIMESTAMP, Shifted(p.timestamp, origin))
  }

  function NewHeader(p: Planned, origin: int): Bytes {
    var ts := TimestampElement(p, origin);
    EncodeID(ID_CLUSTER) + EncodeSize(U64(|ts| + Total(p.body)), 8) + ts
  }

  /** The clip's cue points: time in the clip, and the index of the cluster. */
  datatype NewCue = NewCue(time: nat, cluster: nat)

  /** The last planned cluster that starts at off in the source. */
  function IndexOf(plan: seq<Planned>, off: nat): (i: Option<nat>)
    ensures i.Some? ==> i.value < |plan| && plan[i.value].c.off == off
  {
    if plan == [] then None
    else if plan[|plan| - 1].c.off == off then Some(|plan| - 1)
    else IndexOf(plan[..|plan| - 1], off)
  }

  predicate CueSurvives(cp: CuePoint, plan: seq<Planned>, origin: int, endT: nat) {
    IndexOf(plan, cp.clusterOff).Some? && I64(cp.time) >= origin && cp.time < endT
  }

  function NewCues(cues: seq<CuePoint>, plan: seq<Planned>, origin: int, endT: nat): seq<NewCue> {
    if cues == [] then []
    else (if CueSurvives(cues[0], plan, origin, endT)
          then [NewCue(Shifted(cues[0].time, origin), IndexOf(plan, cues[0].clusterOff).value)] else [])
         + NewCues(cues[1..], plan, origin, endT)
  }

  /** One CuePoint element pointing at Segment position pos. */
  function CueElement(time: nat, video: nat, pos: int): Element {
    Encoded(ID_CUE_POINT, EncodeUint(ID_CUE_TIME, time) + EncodeElement(ID_CUE_TRACK_POSITIONS, CueTarget(video, pos)))
  }

  function CueTarget(video: nat, pos: int): Bytes {
    EncodeUint(ID_CUE_TRACK, video) + EncodeUintWidth(ID_CUE_CLUSTER_POSITION, U64(pos), 8)
  }

  /** Where the clusters go is given by `offsets`; a cluster not laid out yet is at 0. */
  function OffsetOf(offsets: seq<int>, i: nat): int {
    if i < |offsets| then offsets[i] else 0
  }

  function CueElements(cues: seq<NewCue>, video: nat, offsets: seq<int>): seq<Element> {
    if cues == [] then []
    else [CueElement(cues[0].time, video, OffsetOf(offsets, cues[0].cluster))] + CueElements(cues[1..], video, offsets)
  }

  function CuesElement(cues: seq<NewCue>, video: nat, offsets: seq<int>): Element {
    Encoded(ID_CUES, Flat(CueElements(cues, video, offsets)))
  }

  function SeekElement(id: nat, pos: int): Element {
    Encoded(ID_SEEK, EncodeElement(ID_SEEK_ID, EncodeID(id)) + EncodeUintWidth(ID_SEEK_POSITION, U64(pos), 8))
  }

  /** The Seek entries; attachments are listed when attPos is given. */
  function SeekElements(infoPos: int, tracksPos: int, cuesPos: int, attPos: Option<int>): seq<Element> {
    [SeekElement(ID_INFO, infoPos), SeekElement(ID_TRACKS, tracksPos)]
    + (if attPos.Some? then [SeekElement(ID_ATTACHMENTS, attPos.value)] else [])
    + [SeekElement(ID_CUES, cuesPos)]
  }

  function SeekHead(infoPos: int, tracksPos: int, cuesPos: int, attPos: Option<int>): Element {
    Encoded(ID_SEEK_HEAD, Flat(SeekElements(infoPos, tracksPos, cuesPos, attPos)))
  }

  /** Offsets of the clusters when the first one goes to pos; the last entry is the end. */
  function Offsets(plan: seq<Planned>, origin: int, pos: int): (s: seq<int>)
    ensures |s| == |plan| + 1 && s[0] == pos
  {
    if plan == [] then [pos]
    else [pos] + Offsets(plan[1..], origin, pos + |NewHeader(plan[0], origin)| + Total(plan[0].body))
  }

  /** Everything of a clip that is fixed before its clusters are laid down. */
  datatype Frame = Frame(seekHead: Bytes, info: Bytes, tracks: Bytes, cues: Bytes,
                         infoPos: int, tracksPos: int, attPos: Option<int>, cuesPos: int,
                         offsets: seq<int>, segmentLen: int)

  function FrameOf(m: Meta, plan: seq<Planned>, origin: int, endT: nat, duration: Bytes, title: Bytes): Frame {
    var info := EncodeElement(ID_INFO, Flat(NewInfo(m, duration, title)));
    var tracks := EncodeElement(ID_TRACKS, Flat(KeptTracks(m.tracksChildren)));
    var cues := NewCues(m.cues, plan, origin, endT);
    // Laid out once, with every position still 0.
    var infoPos := |SeekHead(0, 0, 0, if m.attachments.Some? then Some(0) else None).raw|;
    var tracksPos := infoPos + |info|;
    var attPos := if m.attachments.Some? then Some(tracksPos + |tracks|) else None;
    var cuesPos := tracksPos + |tracks| + (if m.attachments.Some? then m.attachments.value.1 else 0);
    var offsets := Offsets(plan, origin, cuesPos + |CuesElement(cues, m.videoTrack, []).raw|);
    Frame(SeekHead(infoPos, tracksPos, cuesPos, attPos).raw, info, tracks,
          CuesElement(cues, m.videoTrack, offsets).raw, infoPos, tracksPos, attPos, cuesPos, offsets, offsets[|plan|])
  }

  function HeadBytes(m: Meta, f: Frame): Bytes {
    m.ebmlHeader + EncodeID(ID_SEGMENT) + EncodeSize(U64(f.segmentLen), 8) + f.seekHead + f.info + f.tracks
  }

  /** The clusters' parts, in file order. */
  function ClusterParts(plan: seq<Planned>, origin: int): seq<Part> {
    if plan == [] then [] else [Literal(NewHeader(plan[0], origin))] + plan[0].body + ClusterParts(plan[1..], origin)
  }

  function Assemble(m: Meta, plan: seq<Planned>, origin: int, endT: nat, duration: Bytes, title: Bytes): seq<Part> {
    var f := FrameOf(m, plan, origin, endT, duration, title);
    var att := if m.attachments.Some? then [Range(m.attachments.value.0, m.attachments.value.1)] else [];
    AppendAll([Literal(HeadBytes(m, f))], att + [Literal(f.cues)] + ClusterParts(plan, origin))
  }

  /** endT cut to the file's duration in ticks, when that is known. */
  function CutEnd(endT: nat, dur: Option<nat>): nat {
    if dur.Some? && dur.value < endT then dur.value else endT
  }

  /** The clip of ticks [startT, endT); `duration` is the payload stored for its length. */
  function BuildClip(r: Bytes, m: Meta, startT: nat, endT: nat, dur: Option<nat>, duration: Bytes,
          title: Bytes): Result<seq<Part>>
    requires m.cues != []
  {
    if dur.Some? && startT >= dur.value then Err(OutOfRange) else
    var end := CutEnd(endT, dur);
    var (key, plan) :- PlanClip(r, m, startT, end);
    Ok(Assemble(m, plan, I64(key.time), end, duration, title))
  }
}
