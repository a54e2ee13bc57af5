/** What opening a file establishes about its metadata. */
module MkvMeta {
  import opened Basics
  import opened Ebml
  import opened Mkv
  import opened MkvPlan

  // ---------------------------------------------------------------- sorted cues

  predicate Sorted(cues: seq<CuePoint>) {
    forall i, j :: 0 <= i < j < |cues| ==> cues[i].time <= cues[j].time
  }

  predicate NoneLater(cues: seq<CuePoint>, t: nat) {
    forall c :: c in cues ==> c.time <= t
  }

  lemma SortedSnoc(cues: seq<CuePoint>, c: CuePoint)
    requires Sorted(cues) && NoneLater(cues, c.time)
    ensures Sorted(cues + [c])
  {
  }

  lemma SortedInit(cues: seq<CuePoint>)
    requires Sorted(cues) && cues != []
    ensures Sorted(cues[..|cues| - 1]) && NoneLater(cues, cues[|cues| - 1].time)
  {
    forall c | c in cues
      ensures c.time <= cues[|cues| - 1].time
    {
      var i :| 0 <= i < |cues| && cues[i] == c;
    }
  }

  lemma SamePermuted(cues: seq<CuePoint>, other: seq<CuePoint>, t: nat)
    requires multiset(cues) == multiset(other) && NoneLater(cues, t)
    ensures NoneLater(other, t)
  {
    forall c | c in other
      ensures c.time <= t
    {
      assert c in multiset(other);
    }
  }

  lemma {:induction false} InsertSorted(cues: seq<CuePoint>, c: CuePoint)
    requires Sorted(cues)
    ensures Sorted(Insert(cues, c)) && multiset(Insert(cues, c)) == multiset(cues + [c])
  {
    hide Sorted, NoneLater;
    if cues == [] {
      NoneIn(c.time);
      SortedSnoc(cues, c);
    } else {
      var init, last := cues[..|cues| - 1], cues[|cues| - 1];
      SortedInit(cues);
      if last.time <= c.time {
        NoneLaterUp(cues, last.time, c.time);
        SortedSnoc(cues, c);
      } else {
        InsertSorted(init, c);
        NoneLaterSnoc(cues, c, last.time);
        SamePermuted(init + [c], Insert(init, c), last.time);
        SortedSnoc(Insert(init, c), last);
        InitLast(cues);
      }
    }
  }

  lemma NoneIn(t: nat)
    ensures Sorted([]) && NoneLater([], t)
  {
  }

  lemma NoneLaterUp(cues: seq<CuePoint>, t: nat, t': nat)
    requires NoneLater(cues, t) && t <= t'
    ensures NoneLater(cues, t')
  {
  }

  lemma NoneLaterSnoc(cues: seq<CuePoint>, c: CuePoint, t: nat)
    requires NoneLater(cues, t) && c.time <= t && cues != []
    ensures NoneLater(cues[..|cues| - 1] + [c], t)
  {
  }

  /** Sorting gives the same cues in ascending order. */
  lemma {:induction false} SortCuesSorts(cues: seq<CuePoint>)
    ensures Sorted(SortCues(cues)) && multiset(SortCues(cues)) == multiset(cues)
  {
    if cues != [] {
      SortCuesSorts(cues[..|cues| - 1]);
      assert multiset(SortCues(cues[..|cues| - 1]) + [cues[|cues| - 1]]) ==
        multiset(cues[..|cues| - 1] + [cues[|cues| - 1]]);
      InsertSorted(SortCues(cues[..|cues| - 1]), cues[|cues| - 1]);
      InitLast(cues);
    }
  }

  /** Cues already in ascending order stay as they are. */
  lemma {:induction false} SortCuesKeeps(cues: seq<CuePoint>)
    requires Sorted(cues)
    ensures SortCues(cues) == cues
  {
    if cues != [] {
      var init := cues[..|cues| - 1];
      SortCuesKeeps(init);
      InitLast(cues);
      if init != [] { assert init[|init| - 1] == cues[|cues| - 2]; }
    }
  }

  // ---------------------------------------------------------------- cue times

  predicate Times64(cues: seq<CuePoint>) {
    forall c :: c in cues ==> c.time < TWO64
  }

  lemma LastUintBound(es: seq<Element>, id: nat)
    ensures LastUint(es, id) < TWO64
  {
    if LastData(es, id).Some? { UintOr0Bound(LastData(es, id).value); }
  }

  lemma {:induction false} PositionsTimes(kids: seq<Element>, t: nat, video: nat, segmentData: nat, size: nat)
    requires PositionsIn(kids, t, video, segmentData, size).Ok? && t < TWO64
    ensures Times64(PositionsIn(kids, t, video, segmentData, size).value)
  {
    hide LastUint, LastData, Elements;
    if kids != [] { PositionsTimes(kids[1..], t, video, segmentData, size); }
  }

  lemma {:induction false} CuesTimes(points: seq<Element>, video: nat, segmentData: nat, size: nat)
    requires CuesIn(points, video, segmentData, size).Ok?
    ensures Times64(CuesIn(points, video, segmentData, size).value)
  {
    hide LastUint, PositionsIn, Elements;
    if points != [] {
      CuesTimes(points[1..], video, segmentData, size);
      if points[0].id == ID_CUE_POINT {
        var kids := Elements(points[0].data).value;
        LastUintBound(kids, ID_CUE_TIME);
        PositionsTimes(kids, LastUint(kids, ID_CUE_TIME), video, segmentData, size);
      }
    }
  }

  lemma SameTimes(a: seq<CuePoint>, b: seq<CuePoint>)
    requires multiset(a) == multiset(b) && Times64(a)
    ensures Times64(b) && (a == [] <==> b == [])
  {
    forall c | c in b
      ensures c.time < TWO64
    {
      assert c in multiset(b);
    }
    assert |multiset(a)| == |a| && |multiset(b)| == |b|;
  }

  lemma ParsedCues(r: Bytes, off: nat, video: nat, segmentData: nat)
    requires ParseCues(r, off, video, segmentData).Ok?
    ensures var cues := ParseCues(r, off, video, segmentData).value; cues != [] && Sorted(cues) && Times64(cues)
  {
    hide ReadElement, Elements, CuesIn, SortCues, Sorted, Times64;
    var points := Elements(ReadElement(r, off, ID_CUES).value).value;
    var cues := CuesIn(points, video, segmentData, |r|).value;
    CuesTimes(points, video, segmentData, |r|);
    SortCuesSorts(cues);
    SameTimes(cues, SortCues(cues));
  }

  // ---------------------------------------------------------------- header, Info, Tracks

  /** b is one whole element with the ID of an EBML header, small enough to be read. */
  predicate HeaderOk(b: Bytes) {
    && ParseHeader(b).Ok? && |b| <= MAX_ELEMENT
    && var h := ParseHeader(b).value; h.id == ID_EBML && h.size >= 0 && h.headerLen + h.size == |b|
  }

  lemma EbmlHeaderOk(r: Bytes, h: Header)
    requires ReadHeaderAt(r, 0) == Ok(h) && h.id == ID_EBML && h.size >= 0 && ReadAt(r, 0, h.headerLen + h.size).Ok?
    ensures HeaderOk(ReadAt(r, 0, h.headerLen + h.size).value)
  {
    hide ParseHeader;
    WindowSuffices(r, 0);
    assert r[0..] == r;
    ParsedHeader(r);
    var b := ReadAt(r, 0, h.headerLen + h.size).value;
    SubSlice(r, 0, h.headerLen + h.size, 0, h.headerLen);
    HeaderStable(r, b);
  }

  lemma ElementPayload(r: Bytes, off: nat, id: nat)
    requires ReadElement(r, off, id).Ok?
    ensures |ReadElement(r, off, id).value| <= MAX_ELEMENT
  {
    hide ReadHeaderAt;
  }

  lemma ParsedInfo(r: Bytes, off: nat)
    requires ParseInfo(r, off).Ok?
    ensures AllElements(ParseInfo(r, off).value)
  {
    hide ReadElement, Elements, AllElements;
    ElementsTile(ReadElement(r, off, ID_INFO).value);
  }

  lemma {:induction false} VideoBound(es: seq<Element>, found: nat)
    requires VideoIn(es, found).Ok? && found < TWO64
    ensures VideoIn(es, found).value < TWO64
  {
    hide LastUint, Elements;
    if es != [] {
      if es[0].id != ID_TRACK_ENTRY {
        VideoBound(es[1..], found);
      } else {
        var kids := Elements(es[0].data).value;
        LastUintBound(kids, ID_TRACK_NUMBER);
        VideoBound(es[1..], if LastUint(kids, ID_TRACK_TYPE) == 1 && found == 0 then LastUint(kids, ID_TRACK_NUMBER)
          else found);
      }
    }
  }

  lemma ParsedTracks(r: Bytes, off: nat)
    requires ParseTracks(r, off).Ok?
    ensures var (es, video) := ParseTracks(r, off).value;
      AllElements(es) && |Flat(es)| <= MAX_ELEMENT && VideoIn(es, 0) == Ok(video) && 0 < video < TWO64
  {
    hide ReadElement, Elements, AllElements, VideoIn, Flat;
    var b := ReadElement(r, off, ID_TRACKS).value;
    ElementPayload(r, off, ID_TRACKS);
    ElementsTile(b);
    VideoBound(Elements(b).value, 0);
  }

  // ---------------------------------------------------------------- attachments

  /** The place a.0, of a.1 bytes, is an Attachments element that ends at or before lim. */
  predicate AttachmentsAt(r: Bytes, a: (nat, nat), lim: nat) {
    && ReadHeaderAt(r, a.0).Ok?
    && var h := ReadHeaderAt(r, a.0).value;
      h.id == ID_ATTACHMENTS && h.size >= 0 && a.1 == h.headerLen + h.size && a.0 + a.1 <= lim
  }

  predicate MaybeAttachments(r: Bytes, a: Option<(nat, nat)>, lim: nat) {
    a.Some? ==> AttachmentsAt(r, a.value, lim)
  }

  lemma VisitAttachments(r: Bytes, off: nat, h: Header, segmentData: nat, f: Found)
    requires ReadHeaderAt(r, off) == Ok(h) && h.size >= 0 && Visit(r, off, h, segmentData, f).Ok?
    requires MaybeAttachments(r, f.attachments, off)
    ensures MaybeAttachments(r, Visit(r, off, h, segmentData, f).value.attachments, off + h.headerLen + h.size)
  {
    hide ReadHeaderAt, ReadAt, SeekPosition;
  }

  lemma {:induction false} WalkAttachments(r: Bytes, off: nat, segmentData: nat, segmentEnd: nat, f: Found)
    requires WalkTop(r, off, segmentData, segmentEnd, f).Ok? && MaybeAttachments(r, f.attachments, off)
    ensures var (g, c) := WalkTop(r, off, segmentData, segmentEnd, f).value;
      c != 0 ==> (MaybeAttachments(r, g.attachments, c) && c < |r| && c < segmentEnd && off <= c
                  && ReadHeaderAt(r, c).Ok? && ReadHeaderAt(r, c).value.id == ID_CLUSTER)
    decreases segmentEnd - off
  {
    hide ReadHeaderAt, Visit, MaybeAttachments;
    if off < segmentEnd {
      HeaderBounds(r, off);
      var h := ReadHeaderAt(r, off).value;
      if h.id == ID_CLUSTER {
        HeaderInside(r, off);
      } else {
        VisitAttachments(r, off, h, segmentData, f);
        WalkAttachments(r, off + h.headerLen + h.size, segmentData, segmentEnd, Visit(r, off, h, segmentData, f).value);
      }
    }
  }

  lemma HeaderInside(r: Bytes, off: nat)
    requires ReadHeaderAt(r, off).Ok?
    ensures off < |r|
  {
  }

  // ---------------------------------------------------------------- all of it

  /** What the rest of the package relies on in a Source that Open returned. */
  predicate MetaOk(r: Bytes, m: Meta) {
    && HeaderOk(m.ebmlHeader) && m.size == |r| && m.segmentEnd <= |r|
    && AllElements(m.infoChildren) && ScaleOf(m.infoChildren) == m.timestampScale
    && AllElements(m.tracksChildren) && |Flat(m.tracksChildren)| <= MAX_ELEMENT
    && VideoIn(m.tracksChildren, 0) == Ok(m.videoTrack) && 0 < m.videoTrack < TWO64
    && MaybeAttachments(r, m.attachments, |r|)
    && m.cues != [] && Sorted(m.cues) && Times64(m.cues)
  }

  lemma AttachmentsWeaken(r: Bytes, a: Option<(nat, nat)>, lim: nat, lim': nat)
    requires MaybeAttachments(r, a, lim) && lim <= lim'
    ensures MaybeAttachments(r, a, lim')
  {
    hide ReadHeaderAt;
  }

  lemma NoAttachments(r: Bytes, lim: nat)
    ensures MaybeAttachments(r, None, lim)
  {
  }

  /** Whatever Open accepts is as described. */
  lemma OpenMetaOk(r: Bytes, m: Meta)
    requires OpenMeta(r) == Ok(m)
    ensures MetaOk(r, m)
  {
    hide ReadHeaderAt, ReadAt, WalkTop, ParseInfo, ParseTracks, ParseCues, ScaleOf, DurationOf, HeaderOk, AllElements,
         Flat, VideoIn, MaybeAttachments, Sorted, Times64;
    var h := ReadHeaderAt(r, 0).value;
    HeaderBounds(r, 0);
    EbmlHeaderOk(r, h);
    var start := |m.ebmlHeader|;
    var seg := ReadHeaderAt(r, start).value;
    var (f, c) := WalkTop(r, m.segmentData, m.segmentData, m.segmentEnd, Found(None, None, None, None)).value;
    NoAttachments(r, m.segmentData);
    WalkAttachments(r, m.segmentData, m.segmentData, m.segmentEnd, Found(None, None, None, None));
    AttachmentsWeaken(r, f.attachments, c, |r|);
    ParsedInfo(r, f.info.value);
    ParsedTracks(r, f.tracks.value);
    ParsedCues(r, f.cues.value, m.videoTrack, m.segmentData);
  }

  /** So is a Source whose cues are in any other ascending order: which one the source's sort gives to cues of
      equal times is open. */
  lemma AnyCueOrder(r: Bytes, m: Meta, cues: seq<CuePoint>)
    requires OpenMeta(r) == Ok(m) && multiset(cues) == multiset(m.cues) && Sorted(cues)
    ensures MetaOk(r, m.(cues := cues))
  {
    hide OpenMeta, MaybeAttachments, HeaderOk, AllElements, Flat, VideoIn, ScaleOf;
    OpenMetaOk(r, m);
    SameTimes(m.cues, cues);
  }
}
