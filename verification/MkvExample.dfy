/** Files that can be clipped, written out: one for which everything the theorems ask is met, one whose clip
    starts late, one whose clip reaches past its end, and one whose clip cannot be opened. */
module MkvExample {
  import opened Basics
  import opened Ebml
  import opened Layouts
  import opened Mkv
  import MkvCluster
  import opened MkvPlan
  import opened MkvImage
  import opened MkvKeep
  import opened MkvClip
  import opened MkvMeta
  import opened MkvReopen
  import opened MkvCues
  import opened MkvOpen
  import opened MkvTheorem
  import opened MkvSample

  // ---------------------------------------------------------------- small clips

  lemma {:induction false} KeptInfoShorter(es: seq<Element>)
    ensures |Flat(KeptInfo(es))| <= |Flat(es)|
  {
    hide DroppedInfo;
    if es != [] {
      KeptInfoShorter(es[1..]);
      var rest := KeptInfo(es[1..]);
      assert ([es[0]] + rest)[1..] == rest && [] + rest == rest;
    }
  }

  /** What BuildClip stores in Info: a duration of eight bytes, and a title as long as a clip's name may be. */
  predicate Labels(duration: Bytes, title: Bytes) { |duration| == 8 && |title| <= 200 }

  lemma InfoBound(m: Meta, duration: Bytes, title: Bytes)
    requires Labels(duration, title)
    ensures |Flat(NewInfo(m, duration, title))| <= |Flat(m.infoChildren)| + 232
  {
    hide EncodeElement, KeptInfo, Flat;
    KeptInfoShorter(m.infoChildren);
    var d, t := Encoded(ID_DURATION, duration), Encoded(ID_TITLE, title);
    FlatConcat(KeptInfo(m.infoChildren), [d, t]);
    FlatTwo(d, t);
    EncodedLengthBound(ID_DURATION, duration);
    EncodedLengthBound(ID_TITLE, title);
  }

  lemma {:induction false} NewCuesFewer(cues: seq<CuePoint>, plan: seq<Planned>, origin: int, endT: nat)
    ensures |NewCues(cues, plan, origin, endT)| <= |cues|
  {
    hide CueSurvives, IndexOf, Shifted;
    if cues != [] { NewCuesFewer(cues[1..], plan, origin, endT); }
  }

  /** m has little metadata, one video track and one cue. */
  predicate Small(m: Meta) {
    && m.attachments == None && |m.ebmlHeader| <= 12 && |Flat(m.infoChildren)| <= 100 && |Flat(m.tracksChildren)| <= 100
    && |m.cues| == 1 && m.videoTrack == 1 && AllElements(m.tracksChildren)
  }

  lemma SmallCues(m: Meta, plan: seq<Planned>, origin: int, endT: nat, offsets: seq<int>)
    requires Small(m)
    ensures |Flat(CueElements(NewCues(m.cues, plan, origin, endT), m.videoTrack, offsets))| <= 84
  {
    hide CueElements, NewCues, Flat, AllElements;
    NewCuesFewer(m.cues, plan, origin, endT);
    CueBytesBound(NewCues(m.cues, plan, origin, endT), offsets);
  }

  lemma {:induction false} ImageBound(r: Bytes, plan: seq<Planned>, origin: int)
    requires forall i :: 0 <= i < |plan| ==> |BodyBytes(r, plan[i])| <= MAX_ELEMENT
    ensures |Image(r, plan, origin)| <= |plan| * (32 + MAX_ELEMENT)
  {
    hide NewHeader, BodyBytes, Image;
    ImageLength(r, plan, origin);
    if plan != [] {
      HeaderHasTimestamp(plan[0], origin);
      TimestampShort(Shifted(plan[0].timestamp, origin));
      ImageBound(r, plan[1..], origin);
    }
  }

  lemma SeekHeadSmall()
    ensures |SeekHead(0, 0, 0, None).raw| <= 204
  {
    hide EncodeElement, SeekElements, Flat;
    SeekAll(0, 0, 0, None);
    EncodedLengthBound(ID_SEEK_HEAD, Flat(SeekElements(0, 0, 0, None)));
  }

  lemma SmallClip(r: Bytes, m: Meta, plan: seq<Planned>, origin: int, endT: nat, duration: Bytes, title: Bytes)
    requires Labels(duration, title)
    requires BodiesOk(r, plan) && Small(m) && |Image(r, plan, origin)| < TWO31
    ensures |ClipBytes(r, m, FrameOf(m, plan, origin, endT, duration, title), plan, origin)| < TWO56
  {
    hide At, Image, NewInfo, KeptTracks, NewCues, CueElements, SeekElements, EncodeElement, EncodeID, EncodeSize, U64,
         Flat, BodiesOk, Offsets, BodyBytes, ClipBytes, AllElements;
    var f := FrameOf(m, plan, origin, endT, duration, title);
    FramePlaces(r, m, plan, origin, endT, duration, title);
    InfoBound(m, duration, title);
    EncodedLengthBound(ID_INFO, Flat(NewInfo(m, duration, title)));
    KeptTracksElements(m.tracksChildren);
    EncodedLengthBound(ID_TRACKS, Flat(KeptTracks(m.tracksChildren)));
    SmallCues(m, plan, origin, endT, f.offsets);
    EncodedLengthBound(ID_CUES, Flat(CueElements(NewCues(m.cues, plan, origin, endT), m.videoTrack, f.offsets)));
    SeekHeadSmall();
  }

  lemma BodyBound(r: Bytes, m: Meta, key: CuePoint, endT: nat, cs: seq<Cluster>, plan: seq<Planned>, i: nat)
    requires PlanOk(r, m, key, endT, cs, plan) && |plan| <= 2 && i < |plan|
    ensures |BodyBytes(r, plan[i])| <= MAX_ELEMENT
  {
    hide Chain, Flat, Flatten, AllOk, I64, Shifted, FirstKept, BlocksOr, KeepUntil;
    assert PlannedOk(r, m, key, endT, cs, plan[i], i);
  }

  /** What BuildClip makes of a small file is small, and its metadata is within the reader's bound. */
  lemma ClipShort(r: Bytes, m: Meta, startT: nat, endT: nat, duration: Bytes, title: Bytes)
    requires Labels(duration, title)
    requires OpenMeta(r) == Ok(m) && Small(m) && m.cues != []
      && BuildClip(r, m, startT, endT, None, duration, title).Ok? && endT < TWO63
    requires PlanClip(r, m, startT, endT).Ok? && |PlanClip(r, m, startT, endT).value.1| <= 2
    ensures |Flatten(BuildClip(r, m, startT, endT, None, duration, title).value, r)| < TWO56
  {
    hide OpenMeta, MetaOk, PlanClip, PlanOk, Assemble, Flatten, AllOk, Compact, FrameOf, BodiesOk, AttachmentsOk,
         ClipBytes, KeyCue, CollectClusters, I64, BodyBytes, Sorted, Small, Image;
    OpenMetaOk(r, m);
    MetaAttachments(r, m);
    var key, plan := PlanClip(r, m, startT, endT).value.0, PlanClip(r, m, startT, endT).value.1;
    var cs := PlanClipOk(r, m, startT, endT, key, plan);
    PlanBodies(r, m, key, endT, cs, plan);
    forall i | 0 <= i < |plan|
      ensures |BodyBytes(r, plan[i])| <= MAX_ELEMENT
    {
      BodyBound(r, m, key, endT, cs, plan, i);
    }
    ImageBound(r, plan, I64(key.time));
    SmallClip(r, m, plan, I64(key.time), endT, duration, title);
    AssembledBytes(r, m, plan, I64(key.time), endT, duration, title);
  }

  lemma SmallHead(m: Meta, plan: seq<Planned>, f: Frame, key: CuePoint, endT: nat, duration: Bytes, title: Bytes)
    requires Labels(duration, title)
    requires Small(m) && f.offsets != []
    ensures WithinBound(HeadOf(m, plan, f, key, endT, duration, title))
  {
    hide CueElements, NewCues, Flat, AllElements, NewInfo, KeptTracks, SeekElements, I64;
    InfoBound(m, duration, title);
    SmallCues(m, plan, I64(key.time), endT, f.offsets);
  }

  // ---------------------------------------------------------------- building from one or two clusters

  lemma {:induction false} Builds(r: Bytes, m: Meta, key: CuePoint, cs: seq<Cluster>, startT: nat, endT: nat,
          duration: Bytes, title: Bytes)
    requires m.cues == [key] && key.time < endT < TWO63
      && CollectClusters(r, key.clusterOff, m.segmentEnd, endT) == Ok(cs)
    requires 1 <= |cs| <= 2 && ReadBlocks(r, cs[0]).Ok? && ReadBlocks(r, cs[|cs| - 1]).Ok?
    requires cs[0].timestamp == key.time && forall i :: 0 <= i < |cs| ==> key.time <= cs[i].timestamp < TWO63
    ensures BuildClip(r, m, startT, endT, None, duration, title).Ok? && KeyCue(m.cues, startT) == key
    ensures PlanClip(r, m, startT, endT).Ok? && |PlanClip(r, m, startT, endT).value.1| <= 2
  {
    hide ReadBlocks, KeepFrom, KeepUntil, BlockParts, Assemble, NoneBefore, I64, CollectClusters, PlanClusters;
    assert m.cues[1..] == [];
    assert FirstAfter([], startT) == 0;
    PlanMade(r, m.videoTrack, key, endT, cs);
  }

  lemma {:induction false} OneBuilds(r: Bytes, m: Meta, key: CuePoint, c: Cluster, startT: nat, endT: nat,
          duration: Bytes, title: Bytes)
    requires m.cues == [key] && key.time < endT < TWO63
      && CollectClusters(r, key.clusterOff, m.segmentEnd, endT) == Ok([c])
    requires ReadBlocks(r, c).Ok? && c.timestamp == key.time
    ensures BuildClip(r, m, startT, endT, None, duration, title).Ok? && KeyCue(m.cues, startT) == key
    ensures PlanClip(r, m, startT, endT).Ok? && |PlanClip(r, m, startT, endT).value.1| <= 2
  {
    hide ReadBlocks, CollectClusters, BuildClip, KeyCue, PlanClip;
    Builds(r, m, key, [c], startT, endT, duration, title);
  }

  lemma {:induction false} PlanMade(r: Bytes, video: nat, key: CuePoint, endT: nat, cs: seq<Cluster>)
    requires 1 <= |cs| <= 2 && ReadBlocks(r, cs[0]).Ok? && ReadBlocks(r, cs[|cs| - 1]).Ok? && key.time < TWO63
    requires cs[0].timestamp == key.time && forall i :: 0 <= i < |cs| ==> key.time <= cs[i].timestamp < TWO63
    ensures var plan := PlanClusters(r, video, key, endT, cs);
      plan.Ok? && |plan.value| == |cs| && NoneBefore(plan.value, I64(key.time))
  {
    hide ReadBlocks, FirstKept, KeepUntil, BlockParts, I64;
    NotWrapped(key.time, key.time);
    NotWrapped(cs[|cs| - 1].timestamp, key.time);
    assert PlanClusters(r, video, key, endT, cs).Ok?;
    PlanShape(r, video, key, endT, cs);
  }

  lemma {:induction false} OneCollected(file: Bytes, off: nat, c: Cluster, endT: nat)
    requires ReadCluster(file, off) == Ok(Some(c)) && off < c.end == |file|
    ensures CollectClusters(file, off, |file|, endT) == Ok([c])
  {
    hide ReadCluster, ReadHeaderAt;
    assert [] + [c] == [c];
    assert Collect(file, |file|, |file|, endT, [c]) == Ok([c]);
  }

  lemma {:induction false} TwoCollected(file: Bytes, c: Cluster, d: Cluster, endT: nat)
    requires ReadCluster(file, c.off) == Ok(Some(c)) && ReadCluster(file, d.off) == Ok(Some(d))
    requires c.off < c.end == d.off < d.end == |file| && d.timestamp < endT
    ensures CollectClusters(file, c.off, |file|, endT) == Ok([c, d])
  {
    hide ReadCluster, ReadHeaderAt;
    assert [] + [c] == [c] && [c] + [d] == [c, d];
    assert Collect(file, |file|, |file|, endT, [c, d]) == Ok([c, d]);
    assert Collect(file, d.off, |file|, endT, [c]) == Ok([c, d]);
  }

  /** Another element in front of the cluster is skipped. */
  lemma {:induction false} SkippedCollected(file: Bytes, off: nat, c: Cluster, endT: nat)
    requires ReadHeaderAt(file, off).Ok? && ReadHeaderAt(file, off).value.size >= 0
      && ReadHeaderAt(file, off).value.id != ID_CLUSTER
    requires c.off == off + ReadHeaderAt(file, off).value.headerLen + ReadHeaderAt(file, off).value.size && off < c.off
    requires ReadCluster(file, c.off) == Ok(Some(c)) && c.off < c.end == |file|
    ensures CollectClusters(file, off, |file|, endT) == Ok([c])
  {
    hide ReadHeaderAt;
    OneCollected(file, c.off, c, endT);
    assert ReadCluster(file, off) == Ok(None);
    SkipOne(file, off, |file|, endT, c.off);
  }

  lemma SkipOne(file: Bytes, off: nat, end: nat, endT: nat, next: nat)
    requires off < end && ReadCluster(file, off) == Ok(None) && ReadHeaderAt(file, off).Ok?
      && ReadHeaderAt(file, off).value.size >= 0
    requires next == off + ReadHeaderAt(file, off).value.headerLen + ReadHeaderAt(file, off).value.size
    ensures Collect(file, off, end, endT, []) == Collect(file, next, end, endT, [])
  {
    hide ReadHeaderAt, ReadCluster;
    HeaderBounds(file, off);
  }

  // ---------------------------------------------------------------- the sample files

  /** One cue point at time t. */
  function OneCue(t: nat): seq<NewCue> { [NewCue(t, 0)] }

  lemma SampleCue(t: nat, pos: int, size: nat)
    requires t < TWO64 && 0 <= pos < size && pos < TWO64
    ensures Reachable(OneCue(t), [pos], size)
      && CuesOut(OneCue(t), PayloadPlace(), [pos]) == [CuePoint(t, PayloadPlace() + pos)]
    ensures Sorted(CuesOut(OneCue(t), PayloadPlace(), [pos]))
  {
    hide PayloadPlace;
    assert OneCue(t)[1..] == [];
  }

  lemma SampleSmall(cues: seq<NewCue>, at: seq<int>, ps: seq<Piece>)
    requires |CuesOut(cues, PayloadPlace(), at)| == 1
    ensures Small(Opened(cues, at, ps))
  {
    hide FileOf, Track, EbmlBytes, IsElement, CuesOut, PayloadPlace, FirstPlace, Flat;
    TrackOk();
    FlatOne(Track());
    EbmlOk();
    FlatNone();
  }

  lemma PieceOf(ts: nat, rel: nat)
    requires ts < TWO63 && rel < 128
    ensures PieceOk(Piece(ts, [BlockAt(rel)]))
  {
    hide IsElement, BlockAt;
    BlockAtOk(rel);
    FlatOne(BlockAt(rel));
  }

  lemma OneBlockRead(rel: nat, off: nat, ts: nat)
    requires rel < 128
    ensures |BlockAt(rel).data| <= |BlockAt(rel).raw| && BlocksIn([BlockAt(rel)], off, ts).Ok?
  {
    hide BlockAt, ParseBlock, I64;
    var b := BlockAtParses(rel, off, ts);
    assert [BlockAt(rel)][1..] == [];
    assert BlocksIn([], off + |BlockAt(rel).raw|, ts) == Ok([]);
  }

  lemma PieceSize(p: Piece)
    requires PieceOk(p)
    ensures 0 < |PieceBytes(p)| <= 1061
  {
    hide EncodeElement, Flat, AllElements, PieceHead;
    PieceHeadOk(p.ts);
    EncodedLengthBound(ID_CLUSTER, Flat(PieceHead(p.ts)) + Flat(p.blocks));
    EncodedIsElement(ID_CLUSTER, Flat(PieceHead(p.ts)) + Flat(p.blocks));
    ParsedHeader(EncodeElement(ID_CLUSTER, Flat(PieceHead(p.ts)) + Flat(p.blocks)));
  }

  /** A file of one cluster with one block, with its cue at Segment position pos. */
  lemma {:induction false} OneClusterFile(t: nat, pos: nat, ts: nat) returns (r: Bytes, m: Meta, c: Cluster)
    requires t < TWO63 && ts < TWO63 && pos <= FirstPlace(OneCue(t))
    ensures r == FileOf(OneCue(t), [pos], [Piece(ts, [BlockAt(0)])]) && OpenMeta(r) == Ok(m) && Small(m)
    ensures m.cues == [CuePoint(t, PayloadPlace() + pos)] && m.segmentEnd == |r|
    ensures c.off == PayloadPlace() + FirstPlace(OneCue(t)) && ReadCluster(r, c.off) == Ok(Some(c))
      && ReadBlocks(r, c).Ok?
    ensures c.timestamp == ts && c.off < c.end == |r|
  {
    hide FileOf, Track, EbmlBytes, PieceOk, PieceBytes, OpenMeta, Small, ReadCluster, ReadBlocks, BlocksIn, BlockAt, At,
         Sorted, CuesOut, Reachable, FirstPlace, CuesPlace, EncodeElement, CueBytes;
    var p, cues := Piece(ts, [BlockAt(0)]), OneCue(t);
    var ps := [p];
    r, m := FileOf(cues, [pos], ps), Opened(cues, [pos], ps);
    PieceOf(ts, 0);
    PieceSize(p);
    assert ps[1..] == [] && Pieces(ps) == PieceBytes(p) + Pieces(ps[1..]) == PieceBytes(p) + [] == PieceBytes(p);
    FilePlaces(cues, [pos], ps);
    FrontLength(cues, [pos]);
    SampleCue(t, pos, |r|);
    SampleSmall(cues, [pos], ps);
    SampleOpens(cues, [pos], ps);
    PieceReads(r, PayloadPlace() + FirstPlace(cues), p);
    c := PieceCluster(PayloadPlace() + FirstPlace(cues), p);
    OneBlockRead(0, c.blocksOff, ts);
  }

  // ---------------------------------------------------------------- a clip that opens again

  lemma {:induction false} Reopens(r: Bytes, m: Meta, startT: nat, endT: nat, duration: Bytes, title: Bytes)
    requires Labels(duration, title)
    requires OpenMeta(r) == Ok(m) && Small(m) && m.cues != [] && endT < TWO63
      && BuildClip(r, m, startT, endT, None, duration, title).Ok?
    requires |Flatten(BuildClip(r, m, startT, endT, None, duration, title).value, r)| < TWO56
    requires var off := KeyCue(m.cues, startT).clusterOff;
      off < m.segmentEnd && ReadCluster(r, off).Ok? && ReadCluster(r, off).value.Some?
    ensures OpenMeta(Flatten(BuildClip(r, m, startT, endT, None, duration, title).value, r)).Ok?
  {
    hide OpenMeta, MetaOk, BuildClip, Flatten, AllOk, Compact, KeyCue, CollectClusters, FrameOf, HeadOf, ClipHolds,
         ClipOf, Reopened, CuesInClip, I64, ReadCluster, Small, WithinBound;
    OpenMetaOk(r, m);
    var key, cs, plan, f := ClipTheorem(r, m, startT, endT, None, duration, title);
    KeyCueSurvives(r, m, startT, endT, cs);
    SmallHead(m, plan, f, key, endT, duration, title);
  }

  /** A file for which everything the main theorem asks is met; and the clip cut from it opens again. */
  lemma {:induction false} SmallFile(duration: Bytes, title: Bytes) returns (r: Bytes, m: Meta)
    requires Labels(duration, title)
    ensures OpenMeta(r) == Ok(m) && m.cues != [] && BuildClip(r, m, 0, 1, None, duration, title).Ok?
    ensures |Flatten(BuildClip(r, m, 0, 1, None, duration, title).value, r)| < TWO56
    ensures OpenMeta(Flatten(BuildClip(r, m, 0, 1, None, duration, title).value, r)).Ok?
  {
    hide FirstPlace, CuesPlace, PayloadPlace, OneCue, FileOf, ReadCluster, ReadHeaderAt, ReadBlocks, OpenMeta,
         BuildClip, KeyCue, PlanClip, CollectClusters, Small, Flatten, BlockAt, AllBefore, SourceKept;
    var c: Cluster;
    r, m, c := OneClusterFile(0, FirstPlace(OneCue(0)), 0);
    OneCollected(r, c.off, c, 1);
    OneBuilds(r, m, CuePoint(0, c.off), c, 0, 1, duration, title);
    ClipShort(r, m, 0, 1, duration, title);
    Reopens(r, m, 0, 1, duration, title);
  }

  // ---------------------------------------------------------------- a late start

  /** A file whose only cue is at tick 5: its clip from tick 3 on is built, opens, and starts at tick 5. */
  lemma {:induction false} LateStart(duration: Bytes, title: Bytes) returns (r: Bytes, m: Meta)
    requires Labels(duration, title)
    ensures OpenMeta(r) == Ok(m) && m.cues != [] && BuildClip(r, m, 3, 9, None, duration, title).Ok?
    ensures KeyCue(m.cues, 3).time == 5 > 3
    ensures OpenMeta(Flatten(BuildClip(r, m, 3, 9, None, duration, title).value, r)).Ok?
  {
    hide FirstPlace, CuesPlace, PayloadPlace, OneCue, FileOf, ReadCluster, ReadHeaderAt, ReadBlocks, OpenMeta,
         BuildClip, KeyCue, PlanClip, CollectClusters, Small, Flatten, BlockAt, AllBefore, SourceKept;
    var c: Cluster;
    r, m, c := OneClusterFile(5, FirstPlace(OneCue(5)), 5);
    OneCollected(r, c.off, c, 9);
    OneBuilds(r, m, CuePoint(5, c.off), c, 3, 9, duration, title);
    ClipShort(r, m, 3, 9, duration, title);
    Reopens(r, m, 3, 9, duration, title);
  }

  // ---------------------------------------------------------------- a clip without a cue

  lemma {:induction false} CuesHeader(t: nat, pos: nat, ps: seq<Piece>)
    ensures var r := FileOf(OneCue(t), [pos], ps); var off := PayloadPlace() + CuesPlace();
      var h := ReadHeaderAt(r, off);
      h.Ok? && h.value.id == ID_CUES && h.value.size >= 0 && h.value.headerLen > 0
      && off + h.value.headerLen + h.value.size == PayloadPlace() + FirstPlace(OneCue(t))
  {
    hide FileOf, At, EncodeElement, CueBytes, Front, ReadHeaderAt, CuesPlace, FirstPlace, EbmlBytes;
    var r, off := FileOf(OneCue(t), [pos], ps), PayloadPlace() + CuesPlace();
    FilePlaces(OneCue(t), [pos], ps);
    FrontLength(OneCue(t), [pos]);
    MkvCluster.EncodedAt(r, off, ID_CUES, CueBytes(OneCue(t), [pos]));
    HeaderBounds(r, off);
  }

  lemma NoCueLeft(key: CuePoint, c: Cluster, endT: nat)
    requires c.off != key.clusterOff
    ensures CuesInClip([key], [c], key.time, endT) == []
  {
    assert [key][1..] == [];
  }

  /** off is the place of an element that ends where the cluster starts. */
  predicate InFront(r: Bytes, off: nat, c: Cluster) {
    && ReadHeaderAt(r, off).Ok? && ReadHeaderAt(r, off).value.size >= 0 && ReadHeaderAt(r, off).value.id != ID_CLUSTER
    && c.off == off + ReadHeaderAt(r, off).value.headerLen + ReadHeaderAt(r, off).value.size && off < c.off
  }

  lemma {:induction false} MisplacedFile() returns (r: Bytes, m: Meta, off: nat, c: Cluster)
    ensures OpenMeta(r) == Ok(m) && Small(m) && m.cues == [CuePoint(0, off)] && m.segmentEnd == |r|
    ensures InFront(r, off, c) && ReadCluster(r, c.off) == Ok(Some(c)) && ReadBlocks(r, c).Ok? && c.timestamp == 0
      && c.end == |r|
  {
    hide FirstPlace, CuesPlace, PayloadPlace, OneCue, FileOf, ReadCluster, ReadHeaderAt, ReadBlocks, OpenMeta, Small,
         BlockAt, InFront;
    CuesFirst();
    r, m, c := OneClusterFile(0, CuesPlace(), 0);
    off := PayloadPlace() + CuesPlace();
    CuesInFront(r, off, c);
  }

  lemma CuesFirst()
    ensures CuesPlace() <= FirstPlace(OneCue(0))
  {
    FrontLength(OneCue(0), []);
  }

  lemma CuesInFront(r: Bytes, off: nat, c: Cluster)
    requires r == FileOf(OneCue(0), [CuesPlace()], [Piece(0, [BlockAt(0)])]) && off == PayloadPlace() + CuesPlace()
    requires c.off == PayloadPlace() + FirstPlace(OneCue(0))
    ensures InFront(r, off, c)
  {
    hide FirstPlace, CuesPlace, PayloadPlace, OneCue, FileOf, ReadHeaderAt, BlockAt;
    CuesHeader(0, CuesPlace(), [Piece(0, [BlockAt(0)])]);
  }

  lemma {:induction false} MisplacedCue() returns (r: Bytes, m: Meta, key: CuePoint, c: Cluster)
    ensures OpenMeta(r) == Ok(m) && Small(m) && m.cues == [key] && key.time == 0 && key.clusterOff < c.off
      && c.timestamp == 0
    ensures CollectClusters(r, key.clusterOff, m.segmentEnd, 1) == Ok([c]) && ReadBlocks(r, c).Ok?
  {
    hide ReadCluster, ReadHeaderAt, ReadBlocks, OpenMeta, CollectClusters, Small;
    var off: nat;
    r, m, off, c := MisplacedFile();
    ClusterEnd(r, c.off);
    key := CuePoint(0, off);
    SkippedCollected(r, off, c, 1);
  }

  /** A file whose only cue points at the element in front of its cluster: its clip is built, and cannot be opened. */
  lemma {:induction false} LostCue(duration: Bytes, title: Bytes) returns (r: Bytes, m: Meta)
    requires Labels(duration, title)
    ensures OpenMeta(r) == Ok(m) && m.cues != [] && BuildClip(r, m, 0, 1, None, duration, title).Ok?
    ensures OpenMeta(Flatten(BuildClip(r, m, 0, 1, None, duration, title).value, r)) == Err(Unsupported)
  {
    hide ReadBlocks, OpenMeta, BuildClip, KeyCue, PlanClip, CollectClusters, Small, Flatten;
    var key, c;
    r, m, key, c := MisplacedCue();
    OneBuilds(r, m, key, c, 0, 1, duration, title);
    ClipShort(r, m, 0, 1, duration, title);
    CannotOpen(r, m, key, c, duration, title);
  }

  lemma {:induction false} CannotOpen(r: Bytes, m: Meta, key: CuePoint, c: Cluster, duration: Bytes, title: Bytes)
    requires OpenMeta(r) == Ok(m) && m.cues == [key] && key.time == 0
      && BuildClip(r, m, 0, 1, None, duration, title).Ok?
    requires KeyCue(m.cues, 0) == key && CollectClusters(r, key.clusterOff, m.segmentEnd, 1) == Ok([c])
      && c.off != key.clusterOff
    requires |Flatten(BuildClip(r, m, 0, 1, None, duration, title).value, r)| < TWO56
    ensures OpenMeta(Flatten(BuildClip(r, m, 0, 1, None, duration, title).value, r)) == Err(Unsupported)
  {
    hide OpenMeta, MetaOk, BuildClip, Flatten, AllOk, Compact, KeyCue, CollectClusters, FrameOf, HeadOf, ClipHolds,
         ClipOf, Reopened, CuesInClip, I64, WithinBound;
    OpenMetaOk(r, m);
    var k, cs, plan, f := ClipTheorem(r, m, 0, 1, None, duration, title);
    NoCueLeft(key, c, 1);
  }

  // ---------------------------------------------------------------- a clip past its end

  /** Two clusters: at tick 0 with blocks at ticks 0 and 5, and at tick 1 with one block. */
  function Long(): seq<Piece> { [Piece(0, [BlockAt(0), BlockAt(5)]), Piece(1, [BlockAt(0)])] }

  lemma LongOk()
    ensures PieceOk(Long()[0]) && PieceOk(Long()[1])
  {
    hide IsElement, BlockAt;
    BlockAtOk(0);
    BlockAtOk(5);
    FlatOne(BlockAt(0));
    FlatTwo(BlockAt(0), BlockAt(5));
  }

  lemma LongPieces()
    ensures Pieces(Long()) == PieceBytes(Long()[0]) + PieceBytes(Long()[1])
  {
    hide PieceBytes, BlockAt;
    var ps := Long();
    assert ps[1..] == [ps[1]] && [ps[1]][1..] == [];
    assert Pieces([]) == [];
    assert Pieces([ps[1]]) == PieceBytes(ps[1]) + [] == PieceBytes(ps[1]);
  }

  lemma {:induction false} TwoBlocksRead(off: nat) returns (a: Block, b: Block)
    ensures |BlockAt(0).data| <= |BlockAt(0).raw| && |BlockAt(5).data| <= |BlockAt(5).raw|
    ensures BlocksIn([BlockAt(0), BlockAt(5)], off, 0) == Ok([a, b]) && a.track == 1 && a.time == 0 && b.time == 5
  {
    hide BlockAt, ParseBlock, I64;
    NotWrapped(0, 0);
    a := BlockAtParses(0, off, 0);
    b := BlockAtParses(5, off + |BlockAt(0).raw|, 0);
    var es := [BlockAt(0), BlockAt(5)];
    assert es[1..] == [BlockAt(5)] && [BlockAt(5)][1..] == [];
    assert BlocksIn([], off + |BlockAt(0).raw| + |BlockAt(5).raw|, 0) == Ok([]);
    assert BlocksIn([BlockAt(5)], off + |BlockAt(0).raw|, 0) == Ok([b] + []);
    assert [b] + [] == [b] && [a] + [b] == [a, b];
  }

  lemma {:induction false} LongFile() returns (r: Bytes, m: Meta, c: Cluster, d: Cluster, a: Block, b: Block)
    ensures OpenMeta(r) == Ok(m) && Small(m) && m.cues == [CuePoint(0, c.off)] && m.segmentEnd == |r|
    ensures ReadCluster(r, c.off) == Ok(Some(c)) && ReadCluster(r, d.off) == Ok(Some(d)) && c.timestamp == 0
      && d.timestamp == 1
    ensures c.off < c.end == d.off < d.end == |r| && ReadBlocks(r, d).Ok?
    ensures ReadBlocks(r, c) == Ok([a, b]) && a.track == 1 && a.time == 0 && b.time == 5
  {
    hide FileOf, Track, EbmlBytes, PieceOk, PieceBytes, OpenMeta, Small, ReadCluster, ReadBlocks, BlocksIn, BlockAt, At,
         Sorted, CuesOut, Reachable, FirstPlace, CuesPlace, EncodeElement, CueBytes;
    var ps, cues := Long(), OneCue(0);
    var pos := FirstPlace(cues);
    var o := PayloadPlace() + pos;
    r, m := FileOf(cues, [pos], ps), Opened(cues, [pos], ps);
    LongOk();
    PieceSize(ps[0]);
    PieceSize(ps[1]);
    LongPieces();
    FilePlaces(cues, [pos], ps);
    FrontLength(cues, [pos]);
    SampleCue(0, pos, |r|);
    SampleSmall(cues, [pos], ps);
    SampleOpens(cues, [pos], ps);
    AtSplit(r, o, PieceBytes(ps[0]), PieceBytes(ps[1]));
    PieceReads(r, o, ps[0]);
    PieceReads(r, o + |PieceBytes(ps[0])|, ps[1]);
    c, d := PieceCluster(o, ps[0]), PieceCluster(o + |PieceBytes(ps[0])|, ps[1]);
    a, b := TwoBlocksRead(c.blocksOff);
    OneBlockRead(0, d.blocksOff, 1);
  }

  lemma {:induction false} BothKept(a: Block, b: Block, key: CuePoint, endT: nat)
    requires a.track == 1 && a.time == key.time == 0 && b.time == 5
    ensures KeptBlocks([a, b], 1, key.time, endT, true, false, KeyIndex([a, b], 1, key.time, 0)) == [a, b]
  {
    hide Pick;
    var bs := [a, b];
    assert KeyIndex(bs, 1, 0, 0) == 0;
    PickAll(bs, Keeping(bs, 1, 0, endT, true, false, 0));
  }

  lemma {:induction false} LateKept(r: Bytes, m: Meta, key: CuePoint, c: Cluster, d: Cluster, a: Block, b: Block)
    requires ReadBlocks(r, c) == Ok([a, b]) && a.track == 1 && a.time == key.time == 0 && b.time == 5
      && m.videoTrack == 1
    ensures !AllBefore(SourceKept(r, m, key, 3, [c, d], 0), 3)
  {
    hide ReadBlocks, KeptBlocks, KeyIndex;
    BothKept(a, b, key, 3);
    assert b in [a, b];
  }

  /** A file whose clip of ticks [0, 3) is built and opens, and whose first cluster holds a block at or after tick 3. */
  lemma {:induction false} PastEnd(duration: Bytes, title: Bytes)
    returns (r: Bytes, m: Meta, o: Meta, seen: seq<Cluster>)
    requires Labels(duration, title)
    ensures OpenMeta(r) == Ok(m) && m.cues != [] && BuildClip(r, m, 0, 3, None, duration, title).Ok?
      && KeyCue(m.cues, 0).time == 0
    ensures var clip := Flatten(BuildClip(r, m, 0, 3, None, duration, title).value, r);
      && OpenMeta(clip) == Ok(o) && CollectClusters(clip, o.firstCluster, |clip|, TWO64) == Ok(seen)
      && seen != [] && !AllBefore(ReadBlocks(clip, seen[0]), 3)
  {
    hide FirstPlace, CuesPlace, PayloadPlace, OneCue, FileOf, ReadCluster, ReadHeaderAt, ReadBlocks, OpenMeta,
         BuildClip, KeyCue, PlanClip, CollectClusters, Small, Flatten, BlockAt, AllBefore, SourceKept;
    var c, d, a, b;
    r, m, c, d, a, b := LongFile();
    TwoCollected(r, c, d, 3);
    Builds(r, m, CuePoint(0, c.off), [c, d], 0, 3, duration, title);
    ClipShort(r, m, 0, 3, duration, title);
    Reopens(r, m, 0, 3, duration, title);
    SmallTrack(m);
    LateKept(r, m, CuePoint(0, c.off), c, d, a, b);
    o, seen := PastEndSeen(r, m, CuePoint(0, c.off), [c, d], duration, title);
  }

  lemma SmallTrack(m: Meta)
    requires Small(m)
    ensures m.videoTrack == 1
  {
  }

  lemma {:induction false} PastEndSeen(r: Bytes, m: Meta, key: CuePoint, cs: seq<Cluster>, duration: Bytes,
          title: Bytes)
    returns (o: Meta, seen: seq<Cluster>)
    requires OpenMeta(r) == Ok(m) && m.cues != [] && BuildClip(r, m, 0, 3, None, duration, title).Ok?
      && KeyCue(m.cues, 0) == key && key.time == 0
    requires |Flatten(BuildClip(r, m, 0, 3, None, duration, title).value, r)| < TWO56 && cs != []
    requires CollectClusters(r, key.clusterOff, m.segmentEnd, 3) == Ok(cs)
      && !AllBefore(SourceKept(r, m, key, 3, cs, 0), 3)
    requires OpenMeta(Flatten(BuildClip(r, m, 0, 3, None, duration, title).value, r)).Ok?
    ensures var clip := Flatten(BuildClip(r, m, 0, 3, None, duration, title).value, r);
      && OpenMeta(clip) == Ok(o) && CollectClusters(clip, o.firstCluster, |clip|, TWO64) == Ok(seen)
      && seen != [] && !AllBefore(ReadBlocks(clip, seen[0]), 3)
  {
    hide OpenMeta, MetaOk, BuildClip, Flatten, AllOk, Compact, KeyCue, CollectClusters, FrameOf, HeadOf, HoldsKept,
         ClipOf, CuesInClip, I64, WithinBound, AllBefore, SourceKept, ReadBlocks, MovedCues, SameAttachments, NewInfo,
         KeptTracks;
    OpenMetaOk(r, m);
    var k, xs, plan, f := ClipTheorem(r, m, 0, 3, None, duration, title);
    var clip := Flatten(BuildClip(r, m, 0, 3, None, duration, title).value, r);
    o := OpenMeta(clip).value;
    seen := CollectClusters(clip, o.firstCluster, |clip|, TWO64).value;
    ClusterEnds(r, m, key, 3, cs, 0, clip, seen[0]);
  }
}
