/** The top theorem on metadata: opening the assembled clip gives back what it was made of. */
module MkvOpen {
  import opened Basics
  import opened Ebml
  import opened Mkv
  import opened MkvCluster
  import opened MkvPlan
  import opened MkvImage
  import opened MkvClip
  import opened MkvMeta
  import opened MkvFiles
  import opened MkvReopen
  import opened MkvCues

  // ---------------------------------------------------------------- reading one top-level element

  /** An encoded element is read back whole, unless its payload is over the reader's bound. */
  lemma ElementRead(clip: Bytes, off: nat, id: nat, p: Bytes)
    requires ValidID(id) && |p| < TWO56 - 1 && At(clip, off, EncodeElement(id, p))
    ensures ReadElement(clip, off, id) == if |p| <= MAX_ELEMENT then Ok(p) else Err(Unsupported)
  {
    hide ReadHeaderAt, At, EncodeElement;
    EncodedAt(clip, off, id, p);
    if |p| <= MAX_ELEMENT { PayloadRead(clip, off + ReadHeaderAt(clip, off).value.headerLen, p); }
  }

  // ---------------------------------------------------------------- walking the top level

  lemma TopStep(r: Bytes, off: nat, start: nat, end: nat, f: Found, h: Header, g: Found)
    requires off < end && ReadHeaderAt(r, off) == Ok(h) && h.id != ID_CLUSTER && h.size >= 0
    requires Visit(r, off, h, start, f) == Ok(g)
    ensures WalkTop(r, off, start, end, f) == WalkTop(r, off + h.headerLen + h.size, start, end, g)
  {
    hide ReadHeaderAt, Visit;
    HeaderBounds(r, off);
  }

  function Noted(id: nat, off: nat, f: Found): Found {
    if id == ID_INFO then f.(info := Some(off)) else if id == ID_TRACKS then f.(tracks := Some(off))
      else f.(cues := Some(off))
  }

  lemma NotedStep(r: Bytes, off: nat, start: nat, id: nat, p: Bytes, f: Found)
    requires id == ID_INFO || id == ID_TRACKS || id == ID_CUES
    requires |p| < TWO56 - 1 && At(r, off, EncodeElement(id, p))
    ensures WalkTop(r, off, start, |r|, f) == WalkTop(r, off + |EncodeElement(id, p)|, start, |r|, Noted(id, off, f))
  {
    hide ReadHeaderAt, At, EncodeElement, WalkTop;
    EncodedAt(r, off, id, p);
    HeaderInside(r, off);
    TopStep(r, off, start, |r|, f, ReadHeaderAt(r, off).value, Noted(id, off, f));
  }

  lemma SeekHeadStep(r: Bytes, off: nat, start: nat, p: Bytes, f: Found) returns (g: Found)
    requires |p| <= MAX_ELEMENT && At(r, off, EncodeElement(ID_SEEK_HEAD, p))
    ensures WalkTop(r, off, start, |r|, f) == WalkTop(r, off + |EncodeElement(ID_SEEK_HEAD, p)|, start, |r|, g)
    ensures g.info == f.info && g.tracks == f.tracks && g.attachments == f.attachments
    ensures g.cues == if f.cues.Some? then f.cues
                      else match SeekPosition(p, ID_CUES) case Some(pos) => Some(start + pos) case None => None
  {
    hide ReadHeaderAt, At, EncodeElement, WalkTop, SeekPosition, ReadAt;
    EncodedAt(r, off, ID_SEEK_HEAD, p);
    HeaderInside(r, off);
    var h := ReadHeaderAt(r, off).value;
    PayloadRead(r, off + h.headerLen, p);
    g := Visit(r, off, h, start, f).value;
    TopStep(r, off, start, |r|, f, h, g);
  }

  lemma AttachmentsStep(r: Bytes, a: (nat, nat), start: nat, f: Found)
    requires AttachmentsAt(r, a, a.0 + a.1)
    ensures WalkTop(r, a.0, start, |r|, f) == WalkTop(r, a.0 + a.1, start, |r|, f.(attachments := Some(a)))
  {
    hide ReadHeaderAt, WalkTop;
    HeaderInside(r, a.0);
    TopStep(r, a.0, start, |r|, f, ReadHeaderAt(r, a.0).value, f.(attachments := Some(a)));
  }

  lemma WalkStops(r: Bytes, off: nat, start: nat, f: Found)
    requires ReadHeaderAt(r, off).Ok? && ReadHeaderAt(r, off).value.id == ID_CLUSTER
    ensures WalkTop(r, off, start, |r|, f) == Ok((f, off))
  {
    hide ReadHeaderAt;
    HeaderInside(r, off);
  }

  // ---------------------------------------------------------------- the head of a file

  /** The payloads of a clip's head, and where its elements stand. */
  datatype Head = Head(seekHead: Bytes, info: Bytes, tracks: Bytes, cues: Bytes, att: Option<(nat, nat)>,
                       seekAt: nat, infoAt: nat, tracksAt: nat, attAt: nat, cuesAt: nat, clusterAt: nat)

  predicate Stand(clip: Bytes, off: nat, id: nat, p: Bytes, next: nat) {
    |p| < TWO56 - 1 && At(clip, off, EncodeElement(id, p)) && next == off + |EncodeElement(id, p)|
  }

  predicate HeadStands(clip: Bytes, h: Head) {
    && Stand(clip, h.seekAt, ID_SEEK_HEAD, h.seekHead, h.infoAt) && |h.seekHead| <= MAX_ELEMENT
    && Stand(clip, h.infoAt, ID_INFO, h.info, h.tracksAt)
    && Stand(clip, h.tracksAt, ID_TRACKS, h.tracks, h.attAt)
    && (match h.att
        case Some(a) => a.0 == h.attAt && a.0 + a.1 == h.cuesAt && AttachmentsAt(clip, a, a.0 + a.1)
        case None => h.attAt == h.cuesAt)
    && Stand(clip, h.cuesAt, ID_CUES, h.cues, h.clusterAt)
    && ClusterHeaderAt(clip, h.clusterAt)
  }

  predicate ClusterHeaderAt(clip: Bytes, off: int) {
    off >= 0 && ClusterStands(clip, off)
  }

  /** The walk from the Segment's start notes every element of the head and stops at the first cluster. */
  lemma HeadWalk(clip: Bytes, h: Head)
    requires HeadStands(clip, h)
    ensures WalkTop(clip, h.seekAt, h.seekAt, |clip|, Found(None, None, None, None))
         == Ok((Found(Some(h.infoAt), Some(h.tracksAt), Some(h.cuesAt), h.att), h.clusterAt))
  {
    hide ReadHeaderAt, At, EncodeElement, WalkTop, SeekPosition, AttachmentsAt;
    var s := h.seekAt;
    var g := SeekHeadStep(clip, s, s, h.seekHead, Found(None, None, None, None));
    NotedStep(clip, h.infoAt, s, ID_INFO, h.info, g);
    var g1 := Noted(ID_INFO, h.infoAt, g);
    NotedStep(clip, h.tracksAt, s, ID_TRACKS, h.tracks, g1);
    var g2 := Noted(ID_TRACKS, h.tracksAt, g1);
    if h.att.Some? { AttachmentsStep(clip, h.att.value, s, g2); }
    var g3 := g2.(attachments := h.att);
    NotedStep(clip, h.cuesAt, s, ID_CUES, h.cues, g3);
    WalkStops(clip, h.clusterAt, s, Noted(ID_CUES, h.cuesAt, g3));
  }

  /** What Open makes of a file whose EBML header and Segment are followed by such a head. */
  function OpenHead(clip: Bytes, ebmlHeader: Bytes, h: Head): Result<Meta> {
    FromFound(clip, ebmlHeader, h.seekAt, |clip|, Found(Some(h.infoAt), Some(h.tracksAt), Some(h.cuesAt), h.att),
      h.clusterAt)
  }

  lemma OpenIsOpenHead(clip: Bytes, e: Bytes, h: Head)
    requires HeaderOk(e) && At(clip, 0, e) && HeadStands(clip, h) && h.clusterAt > 0
    requires h.seekAt == |e| + 12 && h.seekAt <= |clip| < h.seekAt + TWO56 - 1
    requires ReadHeaderAt(clip, |e|) == Ok(Header(ID_SEGMENT, |clip| - h.seekAt, 12))
    ensures OpenMeta(clip) == OpenHead(clip, e, h)
  {
    hide ReadHeaderAt, At, WalkTop, ReadAt, ParseHeader, HeadStands, ParseInfo, ParseTracks, ParseCues, ScaleOf,
         DurationOf;
    EbmlRead(clip, e);
    HeadWalk(clip, h);
  }

  // ---------------------------------------------------------------- the clip's metadata

  /** What opening the clip should give. */
  function ClipMeta(m: Meta, h: Head, plan: seq<Planned>, f: Frame, key: CuePoint, endT: nat, duration: Bytes,
          title: Bytes, size: nat): Meta {
    Meta(size, m.ebmlHeader, SegmentStart(m), size, m.timestampScale, duration, NewInfo(m, duration, title),
         KeptTracks(m.tracksChildren), m.videoTrack, h.att, h.clusterAt,
         CuesOut(NewCues(m.cues, plan, I64(key.time), endT), SegmentStart(m), f.offsets))
  }

  function Nat(x: int): nat { if x < 0 then 0 else x }

  /** The head of the clip laid out as frame f. */
  function HeadOf(m: Meta, plan: seq<Planned>, f: Frame, key: CuePoint, endT: nat, duration: Bytes, title: Bytes): Head
    requires f.offsets != []
  {
    var s := SegmentStart(m);
    Head(Flat(SeekElements(f.infoPos, f.tracksPos, f.cuesPos, f.attPos)), Flat(NewInfo(m, duration, title)),
         Flat(KeptTracks(m.tracksChildren)),
           Flat(CueElements(NewCues(m.cues, plan, I64(key.time), endT), m.videoTrack, f.offsets)),
         if m.attachments.Some? then Some((Nat(s + f.tracksPos + |f.tracks|), m.attachments.value.1)) else None,
         s, Nat(s + f.infoPos), Nat(s + f.tracksPos), Nat(s + f.tracksPos + |f.tracks|), Nat(s + f.cuesPos),
         Nat(s + f.offsets[0]))
  }

  lemma MovedAttachments(r: Bytes, a: (nat, nat), clip: Bytes, at: nat)
    requires AttachmentsAt(r, a, |r|) && At(clip, at, r[a.0..a.0 + a.1])
    ensures AttachmentsAt(clip, (at, a.1), at + a.1) && a.1 > 0
  {
    hide ReadHeaderAt, ParseHeader;
    HeaderBounds(r, a.0);
    HeaderInside(r, a.0);
    WindowSuffices(r, a.0);
    var b := r[a.0..a.0 + a.1];
    var n := ReadHeaderAt(r, a.0).value.headerLen;
    SubSlice(r, a.0, a.0 + a.1, 0, n);
    SubSlice(r, a.0, |r|, 0, n);
    assert r[a.0..|r|] == r[a.0..];
    HeaderStable(r[a.0..], b);
    SubSlice(clip, at, at + a.1, 0, n);
    HeaderAt(clip, at, b);
  }

  lemma StandFrom(clip: Bytes, start: nat, off: nat, id: nat, p: Bytes)
    requires At(clip, off, EncodeElement(id, p)) && start <= off && |clip| < start + TWO56 - 1
    ensures Stand(clip, off, id, p, off + |EncodeElement(id, p)|)
  {
    hide EncodeElement;
    EncodedLengthBound(id, p);
  }

  /** The frame's elements, spelled out. */
  lemma FrameParts(m: Meta, plan: seq<Planned>, key: CuePoint, endT: nat, duration: Bytes, title: Bytes)
    ensures var f := FrameOf(m, plan, I64(key.time), endT, duration, title);
      && f.offsets != []
      && var h := HeadOf(m, plan, f, key, endT, duration, title);
         && f.seekHead == EncodeElement(ID_SEEK_HEAD, h.seekHead) && f.info == EncodeElement(ID_INFO, h.info)
         && f.tracks == EncodeElement(ID_TRACKS, h.tracks) && f.cues == EncodeElement(ID_CUES, h.cues)
  {
    hide EncodeElement, Flat, NewInfo, KeptTracks, SeekElements, NewCues, I64;
  }

  /** The places of the frame as the clip's bytes have them. */
  predicate Placed(m: Meta, f: Frame, att: Bytes, clip: Bytes) {
    var s := SegmentStart(m);
    && At(clip, 0, m.ebmlHeader + (EncodeID(ID_SEGMENT) + EncodeSize(U64(f.segmentLen), 8)))
    && At(clip, s, f.seekHead) && |f.seekHead| == f.infoPos
    && At(clip, s + f.infoPos, f.info) && f.infoPos + |f.info| == f.tracksPos
    && At(clip, s + f.tracksPos, f.tracks)
    && (f.attPos.Some? <==> m.attachments.Some?)
    && (f.attPos.Some? ==> f.attPos.value == f.tracksPos + |f.tracks|)
    && f.tracksPos + |f.tracks| + |att| == f.cuesPos
    && At(clip, s + f.tracksPos + |f.tracks|, att)
    && At(clip, s + f.cuesPos, f.cues) && f.offsets != [] && f.offsets[0] == f.cuesPos + |f.cues|
    && |clip| == s + f.segmentLen
  }

  lemma ClipPlaced(r: Bytes, m: Meta, key: CuePoint, endT: nat, cs: seq<Cluster>, plan: seq<Planned>, f: Frame,
          clip: Bytes, duration: Bytes, title: Bytes)
    requires ClipOf(r, m, key, endT, cs, plan, f, clip) && f == FrameOf(m, plan, I64(key.time), endT, duration, title)
    ensures Placed(m, f, AttachmentBytes(r, m), clip) && 0 <= f.segmentLen < TWO56 - 1
  {
    hide PlanOk, AttachmentsOk, At, Image, AttachmentBytes, BodiesOk, I64, ClipBytes, FrameOf, Offsets, EncodeID,
         EncodeSize, U64;
    PlanBodies(r, m, key, endT, cs, plan);
    FramePlaces(r, m, plan, I64(key.time), endT, duration, title);
    FrameOffsets(m, plan, I64(key.time), endT, duration, title);
  }

  lemma AttachmentsPlaced(r: Bytes, m: Meta, clip: Bytes, at: nat)
    requires MaybeAttachments(r, m.attachments, |r|) && At(clip, at, AttachmentBytes(r, m))
    ensures match m.attachments
            case Some(a) => |AttachmentBytes(r, m)| == a.1 && AttachmentsAt(clip, (at, a.1), at + a.1)
            case None => AttachmentBytes(r, m) == []
  {
    hide ReadHeaderAt;
    if m.attachments.Some? { MovedAttachments(r, m.attachments.value, clip, at); }
  }

  lemma HeadPlaces(m: Meta, plan: seq<Planned>, f: Frame, key: CuePoint, endT: nat, duration: Bytes, title: Bytes,
          att: Bytes, clip: Bytes)
    requires f == FrameOf(m, plan, I64(key.time), endT, duration, title) && f.offsets != []
    requires Placed(m, f, att, clip) && 0 <= f.segmentLen < TWO56 - 1
    ensures var h := HeadOf(m, plan, f, key, endT, duration, title); var s := SegmentStart(m);
      && h.seekAt == s && At(clip, s, EncodeElement(ID_SEEK_HEAD, h.seekHead)) && |h.seekHead| <= MAX_ELEMENT
      && h.infoAt == s + |EncodeElement(ID_SEEK_HEAD, h.seekHead)| && At(clip, h.infoAt, EncodeElement(ID_INFO, h.info))
      && h.tracksAt == h.infoAt + |EncodeElement(ID_INFO, h.info)|
      && At(clip, h.tracksAt, EncodeElement(ID_TRACKS, h.tracks))
      && h.attAt == h.tracksAt + |EncodeElement(ID_TRACKS, h.tracks)| && At(clip, h.attAt, att)
      && h.cuesAt == h.attAt + |att|
      && At(clip, h.cuesAt, EncodeElement(ID_CUES, h.cues))
      && h.clusterAt == h.cuesAt + |EncodeElement(ID_CUES, h.cues)|
      && h.clusterAt == s + f.offsets[0]
      && h.att == if m.attachments.Some? then Some((h.attAt, m.attachments.value.1)) else None
  {
    hide At, EncodeElement, HeadOf, FrameOf, I64, EncodeID, EncodeSize, U64;
    FrameParts(m, plan, key, endT, duration, title);
    PlacesInside(m, f, att, clip);
    HeadShape(m, plan, f, key, endT, duration, title);
  }

  lemma HeadShape(m: Meta, plan: seq<Planned>, f: Frame, key: CuePoint, endT: nat, duration: Bytes, title: Bytes)
    requires f.offsets != [] && 0 <= f.infoPos <= f.tracksPos <= f.cuesPos < TWO62 - 1 && f.offsets[0] >= f.cuesPos
    requires f.attPos.Some? ==> 0 <= f.attPos.value < TWO62 - 1
    ensures var h := HeadOf(m, plan, f, key, endT, duration, title); var s := SegmentStart(m);
      && h.seekAt == s && h.infoAt == s + f.infoPos && h.tracksAt == s + f.tracksPos
      && h.attAt == s + f.tracksPos + |f.tracks|
      && h.cuesAt == s + f.cuesPos && h.clusterAt == s + f.offsets[0] && |h.seekHead| <= MAX_ELEMENT
      && h.att == if m.attachments.Some? then Some((h.attAt, m.attachments.value.1)) else None
  {
    hide Flat, NewInfo, KeptTracks, SeekElements, NewCues, I64, CueElements;
    SeekAll(f.infoPos, f.tracksPos, f.cuesPos, f.attPos);
  }

  lemma PlacedHead(r: Bytes, m: Meta, plan: seq<Planned>, f: Frame, key: CuePoint, endT: nat, duration: Bytes,
          title: Bytes, clip: Bytes)
    requires f == FrameOf(m, plan, I64(key.time), endT, duration, title) && f.offsets != []
    requires Placed(m, f, AttachmentBytes(r, m), clip) && 0 <= f.segmentLen < TWO56 - 1
      && MaybeAttachments(r, m.attachments, |r|)
    requires ClusterHeaderAt(clip, SegmentStart(m) + f.offsets[0])
    ensures HeadStands(clip, HeadOf(m, plan, f, key, endT, duration, title))
  {
    hide At, EncodeElement, FrameOf, HeadOf, Placed, AttachmentBytes, AttachmentsAt, ClusterHeaderAt, Stand,
         MaybeAttachments, I64;
    HeadPlaces(m, plan, f, key, endT, duration, title, AttachmentBytes(r, m), clip);
    var s, h := SegmentStart(m), HeadOf(m, plan, f, key, endT, duration, title);
    PlacedSize(m, f, AttachmentBytes(r, m), clip);
    StandFrom(clip, s, s, ID_SEEK_HEAD, h.seekHead);
    StandFrom(clip, s, h.infoAt, ID_INFO, h.info);
    StandFrom(clip, s, h.tracksAt, ID_TRACKS, h.tracks);
    AttachmentsPlaced(r, m, clip, h.attAt);
    StandFrom(clip, s, h.cuesAt, ID_CUES, h.cues);
  }

  lemma PlacedSize(m: Meta, f: Frame, att: Bytes, clip: Bytes)
    requires Placed(m, f, att, clip)
    ensures |clip| == SegmentStart(m) + f.segmentLen
  {
    hide At;
  }

  lemma PlacesInside(m: Meta, f: Frame, att: Bytes, clip: Bytes)
    requires Placed(m, f, att, clip) && 0 <= f.segmentLen < TWO56 - 1
    ensures 0 <= f.infoPos <= f.tracksPos <= f.cuesPos < TWO62 - 1
    ensures f.attPos.Some? ==> 0 <= f.attPos.value < TWO62 - 1
    ensures f.tracksPos + |f.tracks| <= f.cuesPos <= f.segmentLen
  {
    hide EncodeID, EncodeSize, U64;
  }

  lemma SegmentRead(m: Meta, f: Frame, att: Bytes, clip: Bytes)
    requires Placed(m, f, att, clip) && 0 <= f.segmentLen < TWO56 - 1
    ensures At(clip, 0, m.ebmlHeader)
    ensures ReadHeaderAt(clip, |m.ebmlHeader|) == Ok(Header(ID_SEGMENT, |clip| - SegmentStart(m), 12))
  {
    hide At, EncodeID, EncodeSize, ReadHeaderAt, MinSizeWidth;
    var head := EncodeID(ID_SEGMENT) + EncodeSize(U64(f.segmentLen), 8);
    AtSplit(clip, 0, m.ebmlHeader, head);
    assert head + [] == head;
    MinSizeWidthAtMost8(f.segmentLen);
    HeaderFound(clip, |m.ebmlHeader|, ID_SEGMENT, f.segmentLen, 8, []);
  }

  // ---------------------------------------------------------------- what the head holds

  lemma NewInfoHolds(m: Meta, duration: Bytes, title: Bytes)
    ensures |Flat(NewInfo(m, duration, title))| >= |duration| && |Flat(NewInfo(m, duration, title))| >= |title|
  {
    hide EncodeElement, KeptInfo, Flat;
    var d, t := Encoded(ID_DURATION, duration), Encoded(ID_TITLE, title);
    EncodedLengthBound(ID_DURATION, duration);
    EncodedLengthBound(ID_TITLE, title);
    FlatConcat(KeptInfo(m.infoChildren), [d, t]);
    FlatTwo(d, t);
  }

  lemma InfoParsed(clip: Bytes, off: nat, m: Meta, duration: Bytes, title: Bytes)
    requires AllElements(m.infoChildren) && ScaleOf(m.infoChildren) == m.timestampScale
    requires var p := Flat(NewInfo(m, duration, title)); |p| < TWO56 - 1 && At(clip, off, EncodeElement(ID_INFO, p))
    ensures var es := NewInfo(m, duration, title);
      && ParseInfo(clip, off) == (if |Flat(es)| <= MAX_ELEMENT then Ok(es) else Err(Unsupported))
      && ScaleOf(es) == m.timestampScale && DurationOf(es) == duration
  {
    hide AllElements, ScaleOf, Flat, NewInfo, At, EncodeElement, ReadElement, Elements, DurationOf;
    NewInfoHolds(m, duration, title);
    ElementRead(clip, off, ID_INFO, Flat(NewInfo(m, duration, title)));
    InfoRead(m, duration, title);
  }

  lemma TracksParsed(r: Bytes, clip: Bytes, off: nat, m: Meta)
    requires MetaOk(r, m) && At(clip, off, EncodeElement(ID_TRACKS, Flat(KeptTracks(m.tracksChildren))))
    ensures ParseTracks(clip, off) == Ok((KeptTracks(m.tracksChildren), m.videoTrack))
  {
    hide AllElements, Flat, KeptTracks, At, EncodeElement, ReadElement, Elements, VideoIn, HeaderOk, MaybeAttachments,
         Sorted, Times64, ScaleOf;
    TracksRead(m);
    ElementRead(clip, off, ID_TRACKS, Flat(KeptTracks(m.tracksChildren)));
  }

  lemma CuesParsed(clip: Bytes, off: nat, cues: seq<NewCue>, video: nat, start: nat, offsets: seq<int>)
    requires Reachable(cues, offsets, |clip|) && video < TWO64 && Sorted(CuesOut(cues, start, offsets))
    requires var p := Flat(CueElements(cues, video, offsets));
      |p| < TWO56 - 1 && At(clip, off, EncodeElement(ID_CUES, p))
    ensures ParseCues(clip, off, video, start)
         == if |Flat(CueElements(cues, video, offsets))| <= MAX_ELEMENT && cues != [] then
              Ok(CuesOut(cues, start, offsets))
            else Err(Unsupported)
  {
    hide Flat, CueElements, At, EncodeElement, ReadElement, Elements, CuesIn, AllElements, Reachable, Sorted, SortCues;
    ElementRead(clip, off, ID_CUES, Flat(CueElements(cues, video, offsets)));
    CuesFound(cues, video, start, offsets, |clip|);
    ElementsOfFlat(CueElements(cues, video, offsets));
    SortCuesKeeps(CuesOut(cues, start, offsets));
  }

  lemma CuesReachable(r: Bytes, m: Meta, key: CuePoint, endT: nat, cs: seq<Cluster>, plan: seq<Planned>, f: Frame,
          clip: Bytes)
    requires ClipOf(r, m, key, endT, cs, plan, f, clip) && endT < TWO63 && Sorted(m.cues)
    ensures Reachable(NewCues(m.cues, plan, I64(key.time), endT), f.offsets, |clip|)
    ensures Sorted(CuesOut(NewCues(m.cues, plan, I64(key.time), endT), SegmentStart(m), f.offsets))
  {
    hide ClipOf, CuesOut, NewCues, Sorted, I64, BodyBytes, NewHeader, At, Image, CueSurvives;
    KeyBefore(r, m, key, endT, cs, plan, f, clip);
    var cues := NewCues(m.cues, plan, I64(key.time), endT);
    forall q | q in cues
      ensures q.time < TWO64 && 0 <= OffsetOf(f.offsets, q.cluster) < TWO64 && OffsetOf(f.offsets, q.cluster) < |clip|
    {
      NewCuesIn(m.cues, plan, key.time, endT, q);
      ClipPlace(r, m, key, endT, cs, plan, f, clip, q.cluster);
      FrameFits(r, m, key, endT, cs, plan, f, clip);
    }
    NoneBeforeZero(m.cues);
    NewCuesSorted(m.cues, plan, key.time, endT, SegmentStart(m), f.offsets, 0);
  }

  lemma NoneBeforeZero(cues: seq<CuePoint>)
    ensures NoneEarlier(cues, 0)
  {
  }

  lemma FrameFits(r: Bytes, m: Meta, key: CuePoint, endT: nat, cs: seq<Cluster>, plan: seq<Planned>, f: Frame,
          clip: Bytes)
    requires ClipOf(r, m, key, endT, cs, plan, f, clip)
    ensures f.segmentLen < TWO56 - 1
  {
    hide PlanOk, AttachmentsOk, FrameOf, ClipBytes;
  }

  lemma KeyBefore(r: Bytes, m: Meta, key: CuePoint, endT: nat, cs: seq<Cluster>, plan: seq<Planned>, f: Frame,
          clip: Bytes)
    requires ClipOf(r, m, key, endT, cs, plan, f, clip)
    ensures key.time < endT && |plan| == |cs| > 0
  {
    hide Chain, PlannedOk, AttachmentsOk, FrameOf, ClipBytes;
  }

  // ---------------------------------------------------------------- the theorem

  /** The reader can hold the clip's Info and Cues in memory. */
  predicate WithinBound(h: Head) {
    |h.info| <= MAX_ELEMENT && |h.cues| <= MAX_ELEMENT
  }

  lemma HeadOpens(r: Bytes, m: Meta, key: CuePoint, endT: nat, cs: seq<Cluster>, plan: seq<Planned>, f: Frame,
          clip: Bytes, duration: Bytes, title: Bytes, h: Head)
    requires MetaOk(r, m) && ClipOf(r, m, key, endT, cs, plan, f, clip) && endT < TWO63 && f.offsets != []
    requires HeadStands(clip, h) && h == HeadOf(m, plan, f, key, endT, duration, title)
    ensures OpenHead(clip, m.ebmlHeader, h) ==
      if WithinBound(h) && NewCues(m.cues, plan, I64(key.time), endT) != []
      then Ok(ClipMeta(m, h, plan, f, key, endT, duration, title, |clip|)) else Err(Unsupported)
  {
    hide ClipOf, At, EncodeElement, Flat, NewInfo, KeptTracks, CueElements, NewCues, CuesOut, I64, ParseInfo,
         ParseTracks, ParseCues, AllElements, ScaleOf, DurationOf, Sorted, Times64, VideoIn, HeaderOk, MaybeAttachments,
         Reachable, AttachmentsAt, ClusterHeaderAt;
    InfoParsed(clip, h.infoAt, m, duration, title);
    TracksParsed(r, clip, h.tracksAt, m);
    CuesReachable(r, m, key, endT, cs, plan, f, clip);
    CuesParsed(clip, h.cuesAt, NewCues(m.cues, plan, I64(key.time), endT), m.videoTrack, SegmentStart(m), f.offsets);
  }

  /** Opening the assembled clip succeeds exactly when a cue survives and the rebuilt Info and Cues fit the
      reader's bound; it then gives the source's timestamp scale, video track and kept metadata, the given
      duration, and the surviving cues at their shifted times and new places. */
  lemma OpenClip(r: Bytes, m: Meta, key: CuePoint, endT: nat, cs: seq<Cluster>, plan: seq<Planned>, f: Frame,
          clip: Bytes, duration: Bytes, title: Bytes)
    requires MetaOk(r, m) && ClipOf(r, m, key, endT, cs, plan, f, clip) && endT < TWO63
    requires f == FrameOf(m, plan, I64(key.time), endT, duration, title)
    ensures f.offsets != []
    ensures var h := HeadOf(m, plan, f, key, endT, duration, title);
      OpenMeta(clip) ==
        if WithinBound(h) && NewCues(m.cues, plan, I64(key.time), endT) != []
        then Ok(ClipMeta(m, h, plan, f, key, endT, duration, title, |clip|)) else Err(Unsupported)
  {
    hide ClipOf, MetaOk, FrameOf, HeadOf, OpenMeta, OpenHead, HeadStands, ClipMeta, WithinBound, NewCues, I64, At,
         HeaderOk, ReadHeaderAt;
    ClipHead(r, m, key, endT, cs, plan, f, clip, duration, title);
    var h := HeadOf(m, plan, f, key, endT, duration, title);
    OpenIsOpenHead(clip, m.ebmlHeader, h);
    HeadOpens(r, m, key, endT, cs, plan, f, clip, duration, title, h);
  }

  lemma ClipHead(r: Bytes, m: Meta, key: CuePoint, endT: nat, cs: seq<Cluster>, plan: seq<Planned>, f: Frame,
          clip: Bytes, duration: Bytes, title: Bytes)
    requires MetaOk(r, m) && ClipOf(r, m, key, endT, cs, plan, f, clip)
    requires f == FrameOf(m, plan, I64(key.time), endT, duration, title)
    ensures f.offsets != []
    ensures var h := HeadOf(m, plan, f, key, endT, duration, title);
      && HeaderOk(m.ebmlHeader) && At(clip, 0, m.ebmlHeader) && HeadStands(clip, h) && h.clusterAt > 0
      && h.seekAt == |m.ebmlHeader| + 12 && h.seekAt <= |clip| < h.seekAt + TWO56 - 1
      && ReadHeaderAt(clip, |m.ebmlHeader|) == Ok(Header(ID_SEGMENT, |clip| - h.seekAt, 12))
  {
    hide ClipOf, MetaOk, FrameOf, HeadOf, HeadStands, Placed, NewCues, I64, AttachmentBytes, At, BodyBytes, NewHeader,
         HeaderOk, ReadHeaderAt, ReadCluster, SeenAt, ClusterHeaderAt, MaybeAttachments, EncodeElement, Image;
    MetaParts(r, m);
    ClipPlaced(r, m, key, endT, cs, plan, f, clip, duration, title);
    ClipSizes(r, m, key, endT, cs, plan, f, clip);
    FirstHeader(r, m, key, endT, cs, plan, f, clip);
    PlacedHead(r, m, plan, f, key, endT, duration, title, clip);
    HeadPlaces(m, plan, f, key, endT, duration, title, AttachmentBytes(r, m), clip);
    PlacedSize(m, f, AttachmentBytes(r, m), clip);
    SegmentRead(m, f, AttachmentBytes(r, m), clip);
    ClipPlace(r, m, key, endT, cs, plan, f, clip, 0);
  }

  lemma FirstHeader(r: Bytes, m: Meta, key: CuePoint, endT: nat, cs: seq<Cluster>, plan: seq<Planned>, f: Frame,
          clip: Bytes)
    requires ClipOf(r, m, key, endT, cs, plan, f, clip)
    ensures f.offsets != [] && ClusterHeaderAt(clip, SegmentStart(m) + f.offsets[0])
  {
    hide ClipOf, ReadCluster, BodyBytes, At, ClusterHeaderAt, I64, NewHeader;
    ClipSizes(r, m, key, endT, cs, plan, f, clip);
    ClusterReads(r, m, key, endT, cs, plan, f, clip, 0);
    ClusterIsCluster(clip, SegmentStart(m) + f.offsets[0]);
  }

  lemma MetaParts(r: Bytes, m: Meta)
    requires MetaOk(r, m)
    ensures HeaderOk(m.ebmlHeader) && MaybeAttachments(r, m.attachments, |r|)
  {
    hide HeaderOk, MaybeAttachments, AllElements, Sorted, Times64, VideoIn, Flat;
  }

  lemma ClusterIsCluster(clip: Bytes, off: int)
    requires off >= 0 && ReadCluster(clip, off).Ok? && ReadCluster(clip, off).value.Some?
    ensures ClusterHeaderAt(clip, off)
  {
    hide ReadHeaderAt, ClusterFrom;
  }
}
