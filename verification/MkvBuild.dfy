/** BuildClip and assemble of internal/mkv in their own form: collected clusters are objects whose
    timestamp, body, header and new offset are overwritten in place. */
module MkvBuild {
  import opened Basics
  import opened Ebml
  import opened EbmlLoops
  import opened Layouts
  import opened Mkv
  import opened MkvMeta
  import opened MkvPlan
  import opened MkvLoops
  import opened MkvSource

  // ---------------------------------------------------------------- Info, Tracks, SeekHead

  lemma KeptInfoNext(es: seq<Element>, i: nat)
    requires i < |es|
    ensures KeptInfo(es[i..]) == (if DroppedInfo(es[i].id) then [] else [es[i]]) + KeptInfo(es[i + 1..])
  {
    assert es[i..][1..] == es[i + 1..];
  }

  lemma KeptTracksNext(es: seq<Element>, i: nat)
    requires i < |es|
    ensures KeptTracks(es[i..]) == (if es[i].id != ID_CRC32 && es[i].id != ID_VOID then [es[i]] else []) +
      KeptTracks(es[i + 1..])
  {
    assert es[i..][1..] == es[i + 1..];
  }

  /** The raw bytes of e, when it is kept, in front of those of the rest. */
  lemma RawNext(b: Bytes, e: Element, keep: bool, rest: seq<Element>)
    ensures b + Flat((if keep then [e] else []) + rest) == (if keep then b + e.raw else b) + Flat(rest)
  {
    if keep {
      assert ([e] + rest)[1..] == rest;
      Assoc(b, e.raw, Flat(rest));
    } else {
      assert [] + rest == rest;
    }
  }

  lemma NoRest(b: Bytes, es: seq<Element>)
    ensures KeptInfo(es[|es|..]) == [] && KeptTracks(es[|es|..]) == [] && b + Flat([]) == b && [] + b == b
  {
  }

  method InfoElement(s: Source, duration: Bytes, title: Bytes) returns (b: Bytes)
    ensures b == EncodeElement(ID_INFO, Flat(NewInfo(s.AsMeta(), duration, title)))
  {
    hide EncodeElement, Flat, KeptInfo, DroppedInfo;
    var es := s.infoChildren;
    var info: Bytes := [];
    WholeSeq(es);
    NoRest(Flat(KeptInfo(es)), es);
    for i := 0 to |es|
      invariant Flat(KeptInfo(es)) == info + Flat(KeptInfo(es[i..]))
    {
      KeptInfoNext(es, i);
      RawNext(info, es[i], !DroppedInfo(es[i].id), KeptInfo(es[i + 1..]));
      if !DroppedInfo(es[i].id) {
        info := info + es[i].raw;
      }
    }
    NoRest(info, es);
    var d, t := Encoded(ID_DURATION, duration), Encoded(ID_TITLE, title);
    FlatConcat(KeptInfo(es), [d, t]);
    FlatTwo(d, t);
    Assoc(info, d.raw, t.raw);
    info := AppendElement(info, ID_DURATION, duration);
    info := AppendElement(info, ID_TITLE, title);
    b := AppendElement([], ID_INFO, info);
    NoRest(b, es);
  }

  method TracksElement(s: Source) returns (b: Bytes)
    ensures b == EncodeElement(ID_TRACKS, Flat(KeptTracks(s.tracksChildren)))
  {
    hide EncodeElement, Flat, KeptTracks;
    var es := s.tracksChildren;
    var tracks: Bytes := [];
    WholeSeq(es);
    NoRest(Flat(KeptTracks(es)), es);
    for i := 0 to |es|
      invariant Flat(KeptTracks(es)) == tracks + Flat(KeptTracks(es[i..]))
    {
      var keep := es[i].id != ID_CRC32 && es[i].id != ID_VOID;
      KeptTracksNext(es, i);
      RawNext(tracks, es[i], keep, KeptTracks(es[i + 1..]));
      if keep {
        tracks := tracks + es[i].raw;
      }
    }
    NoRest(tracks, es);
    b := AppendElement([], ID_TRACKS, tracks);
    NoRest(b, es);
  }

  method SeekEntry(id: nat, pos: int) returns (b: Bytes)
    ensures b == SeekElement(id, pos).raw
  {
    hide EncodeElement, EncodeID, U64;
    b := AppendElement([], ID_SEEK_ID, EncodeID(id));
    assert b == EncodeElement(ID_SEEK_ID, EncodeID(id));
    b := AppendUintWidth(b, ID_SEEK_POSITION, U64(pos), 8);
    ghost var payload := b;
    b := AppendElement([], ID_SEEK, b);
    assert b == EncodeElement(ID_SEEK, payload);
  }

  method SeekHeadElement(infoPos: int, tracksPos: int, cuesPos: int, attPos: Option<int>) returns (b: Bytes)
    ensures b == SeekHead(infoPos, tracksPos, cuesPos, attPos).raw
  {
    hide EncodeElement, SeekElement;
    var info := SeekEntry(ID_INFO, infoPos);
    var tracks := SeekEntry(ID_TRACKS, tracksPos);
    b := info + tracks;
    assert b + [] == b;
    if attPos.Some? {
      var att := SeekEntry(ID_ATTACHMENTS, attPos.value);
      b := b + att;
    }
    var cues := SeekEntry(ID_CUES, cuesPos);
    b := b + cues;
    SeekBytes(infoPos, tracksPos, cuesPos, attPos);
    ghost var payload := b;
    b := AppendElement([], ID_SEEK_HEAD, b);
    assert b == EncodeElement(ID_SEEK_HEAD, payload);
  }

  lemma SeekBytes(infoPos: int, tracksPos: int, cuesPos: int, attPos: Option<int>)
    ensures Flat(SeekElements(infoPos, tracksPos, cuesPos, attPos))
         == SeekElement(ID_INFO, infoPos).raw + SeekElement(ID_TRACKS, tracksPos).raw
            + (if attPos.Some? then SeekElement(ID_ATTACHMENTS, attPos.value).raw else [])
            + SeekElement(ID_CUES, cuesPos).raw
  {
    hide SeekElement, Flat;
    var i, t, c := SeekElement(ID_INFO, infoPos), SeekElement(ID_TRACKS, tracksPos), SeekElement(ID_CUES, cuesPos);
    var a := if attPos.Some? then [SeekElement(ID_ATTACHMENTS, attPos.value)] else [];
    assert SeekElements(infoPos, tracksPos, cuesPos, attPos) == [i, t] + a + [c];
    FlatConcat([i, t] + a, [c]);
    FlatConcat([i, t], a);
    FlatTwo(i, t);
    FlatOne(c);
    if attPos.Some? { FlatOne(SeekElement(ID_ATTACHMENTS, attPos.value)); } else { FlatNone(); }
    assert Flat(a) == if attPos.Some? then SeekElement(ID_ATTACHMENTS, attPos.value).raw else [];
  }

  // ---------------------------------------------------------------- clusters

  /** What the clusters are planned to be. */
  ghost function PlanOf(cs: seq<SourceCluster>): (plan: seq<Planned>)
    reads cs
    ensures |plan| == |cs| && forall i :: 0 <= i < |cs| ==> plan[i] == cs[i].Plan()
  {
    if cs == [] then [] else PlanOf(cs[..|cs| - 1]) + [cs[|cs| - 1].Plan()]
  }

  ghost predicate SameOffsets(cs: seq<SourceCluster>)
    reads cs
  {
    forall c :: c in cs ==> c.source.off == c.off
  }

  /** Every cluster is placed where offsets says, those beyond it at 0. */
  ghost predicate PlacedBy(clusters: seq<SourceCluster>, offsets: seq<int>)
    reads clusters
  {
    forall i :: 0 <= i < |clusters| ==> clusters[i].newOffset == OffsetOf(offsets, i)
  }

  lemma PlanBy(cs: seq<SourceCluster>, plan: seq<Planned>)
    requires |plan| == |cs| && forall i :: 0 <= i < |cs| ==> plan[i] == cs[i].Plan()
    ensures PlanOf(cs) == plan
  {
  }

  /** Gives every cluster its new header. */
  method SetHeaders(clusters: seq<SourceCluster>, origin: int)
    requires Distinct(clusters)
    modifies clusters`newHeader
    ensures PlanOf(clusters) == old(PlanOf(clusters))
    ensures forall i :: 0 <= i < |clusters| ==> clusters[i].newHeader == NewHeader(clusters[i].Plan(), origin)
    ensures forall o :: old(PlacedBy(clusters, o)) ==> PlacedBy(clusters, o)
    ensures old(SameOffsets(clusters)) ==> SameOffsets(clusters)
  {
    hide EncodeUint, EncodeID, EncodeSize, Total, NewHeader;
    ghost var plan := PlanOf(clusters);
    for i := 0 to |clusters|
      invariant forall j :: 0 <= j < i ==> clusters[j].newHeader == NewHeader(clusters[j].Plan(), origin)
      invariant forall j :: 0 <= j < |clusters| ==> plan[j] == clusters[j].Plan()
    {
      var c := clusters[i];
      var ts := AppendUint([], ID_TIMESTAMP, Shifted(c.timestamp, origin));
      var bodyLen := PartsLen(c.body);
      var h := EncodeID(ID_CLUSTER);
      h := AppendSizeWidth(h, U64(|ts| + bodyLen), 8);
      HeaderIs(c.Plan(), origin, ts);
      c.newHeader := h + ts;
    }
    PlanBy(clusters, plan);
  }

  lemma HeaderIs(p: Planned, origin: int, ts: Bytes)
    requires ts == [] + TimestampElement(p, origin)
    ensures NewHeader(p, origin) == EncodeID(ID_CLUSTER) + EncodeSize(U64(|ts| + Total(p.body)), 8) + ts
  {
    hide EncodeUint, EncodeID, EncodeSize, Total;
    assert ts == TimestampElement(p, origin);
  }

  /** Lays the clusters out from pos on. */
  method SetOffsets(clusters: seq<SourceCluster>, pos: int, origin: int) returns (end: int)
    requires Distinct(clusters)
    requires forall i :: 0 <= i < |clusters| ==> clusters[i].newHeader == NewHeader(clusters[i].Plan(), origin)
    modifies clusters`newOffset
    ensures PlanOf(clusters) == old(PlanOf(clusters))
    ensures var o := Offsets(PlanOf(clusters), origin, pos);
      end == o[|clusters|] && PlacedBy(clusters, o)
  {
    hide NewHeader, Total, Offsets;
    ghost var plan := PlanOf(clusters);
    end := pos;
    for i := 0 to |clusters|
      invariant forall j :: 0 <= j < |clusters| ==> plan[j] == clusters[j].Plan()
      invariant end == Offsets(plan, origin, pos)[i]
      invariant forall j :: 0 <= j < i ==> clusters[j].newOffset == Offsets(plan, origin, pos)[j]
    {
      var c := clusters[i];
      OffsetNext(plan, origin, pos, i);
      c.newOffset := end;
      var bodyLen := PartsLen(c.body);
      end := end + |c.newHeader| + bodyLen;
    }
    PlanBy(clusters, plan);
  }

  lemma {:induction false} OffsetNext(plan: seq<Planned>, origin: int, pos: int, i: nat)
    requires i < |plan|
    ensures Offsets(plan, origin, pos)[i + 1] ==
      Offsets(plan, origin, pos)[i] + |NewHeader(plan[i], origin)| + Total(plan[i].body)
  {
    hide NewHeader, Total;
    if i > 0 { OffsetNext(plan[1..], origin, pos + |NewHeader(plan[0], origin)| + Total(plan[0].body), i - 1); }
  }

  // ---------------------------------------------------------------- cues

  /** A cue point of the clip and the cluster it points at. */
  datatype Cue = Cue(time: nat, c: SourceCluster)

  predicate Links(cues: seq<Cue>, points: seq<NewCue>, clusters: seq<SourceCluster>) {
    && |cues| == |points|
    && forall j :: 0 <= j < |cues| ==>
         cues[j].time == points[j].time && points[j].cluster < |clusters| && cues[j].c == clusters[points[j].cluster]
  }

  /** byOff maps each offset to the last cluster that was at it. */
  ghost predicate Indexes(byOff: map<nat, SourceCluster>, clusters: seq<SourceCluster>, plan: seq<Planned>)
    requires |plan| <= |clusters|
  {
    forall off :: (off in byOff <==> IndexOf(plan, off).Some?)
                  && (off in byOff ==> byOff[off] == clusters[IndexOf(plan, off).value])
  }

  lemma IndexNext(byOff: map<nat, SourceCluster>, clusters: seq<SourceCluster>, plan: seq<Planned>, i: nat)
    requires i < |plan| <= |clusters| && Indexes(byOff, clusters, plan[..i])
    ensures Indexes(byOff[plan[i].c.off := clusters[i]], clusters, plan[..i + 1])
  {
    assert plan[..i + 1][..i] == plan[..i];
  }

  method ByOffset(clusters: seq<SourceCluster>) returns (byOff: map<nat, SourceCluster>)
    requires SameOffsets(clusters)
    ensures Indexes(byOff, clusters, PlanOf(clusters))
  {
    hide IndexOf;
    byOff := map[];
    ghost var plan := PlanOf(clusters);
    NothingIndexed(clusters, plan);
    for i := 0 to |clusters|
      invariant Indexes(byOff, clusters, plan[..i])
    {
      var c := clusters[i];
      assert c in clusters;
      IndexNext(byOff, clusters, plan, i);
      byOff := byOff[c.off := c];
    }
    assert plan[..|clusters|] == plan;
  }

  lemma NothingIndexed(clusters: seq<SourceCluster>, plan: seq<Planned>)
    ensures Indexes(map[], clusters, plan[..0])
  {
  }

  lemma NewCuesNext(cues: seq<CuePoint>, i: nat, plan: seq<Planned>, origin: int, endT: nat, got: seq<NewCue>)
    requires i < |cues|
    ensures var cp := cues[i];
      got + NewCues(cues[i..], plan, origin, endT) ==
        (if CueSurvives(cp, plan, origin, endT)
         then got + [NewCue(Shifted(cp.time, origin), IndexOf(plan, cp.clusterOff).value)] else got)
        + NewCues(cues[i + 1..], plan, origin, endT)
  {
    hide IndexOf, Shifted;
    assert cues[i..][1..] == cues[i + 1..];
    var rest := NewCues(cues[i + 1..], plan, origin, endT);
    if CueSurvives(cues[i], plan, origin, endT) {
      Assoc(got, [NewCue(Shifted(cues[i].time, origin), IndexOf(plan, cues[i].clusterOff).value)], rest);
    } else {
      assert [] + rest == rest;
    }
  }

  method CuesOf(s: Source, clusters: seq<SourceCluster>, origin: int, endT: nat)
    returns (cues: seq<Cue>, ghost points: seq<NewCue>)
    requires SameOffsets(clusters)
    ensures points == NewCues(s.cues, PlanOf(clusters), origin, endT) && Links(cues, points, clusters)
  {
    hide IndexOf, Shifted, NewCues;
    var byOff := ByOffset(clusters);
    ghost var plan := PlanOf(clusters);
    cues, points := [], [];
    WholeSeq(s.cues);
    NoMoreCues(s.cues, plan, origin, endT, NewCues(s.cues, plan, origin, endT));
    for i := 0 to |s.cues|
      invariant NewCues(s.cues, plan, origin, endT) == points + NewCues(s.cues[i..], plan, origin, endT)
      invariant Links(cues, points, clusters)
    {
      var cp := s.cues[i];
      NewCuesNext(s.cues, i, plan, origin, endT, points);
      if cp.clusterOff in byOff && I64(cp.time) >= origin && cp.time < endT {
        points := points + [NewCue(Shifted(cp.time, origin), IndexOf(plan, cp.clusterOff).value)];
        cues := cues + [Cue(Shifted(cp.time, origin), byOff[cp.clusterOff])];
      }
    }
    NoMoreCues(s.cues, plan, origin, endT, points);
  }

  lemma NoMoreCues(cues: seq<CuePoint>, plan: seq<Planned>, origin: int, endT: nat, got: seq<NewCue>)
    ensures got + NewCues(cues[|cues|..], plan, origin, endT) == got && [] + got == got
  {
  }

  method CuePointBytes(time: nat, video: nat, pos: int) returns (b: Bytes)
    ensures b == CueElement(time, video, pos).raw
  {
    hide EncodeElement, EncodeUint, U64;
    var target := AppendUint([], ID_CUE_TRACK, video);
    assert target == EncodeUint(ID_CUE_TRACK, video);
    target := AppendUintWidth(target, ID_CUE_CLUSTER_POSITION, U64(pos), 8);
    var point := AppendUint([], ID_CUE_TIME, time);
    assert point == EncodeUint(ID_CUE_TIME, time);
    point := AppendElement(point, ID_CUE_TRACK_POSITIONS, target);
    b := AppendElement([], ID_CUE_POINT, point);
    assert b == EncodeElement(ID_CUE_POINT, point);
  }

  /** The Cues element, pointing at wherever the clusters are placed now. */
  method CuesBytes(cues: seq<Cue>, video: nat, clusters: seq<SourceCluster>, ghost points: seq<NewCue>,
          ghost offsets: seq<int>)
    returns (b: Bytes)
    requires Links(cues, points, clusters) && PlacedBy(clusters, offsets)
    ensures b == CuesElement(points, video, offsets).raw
  {
    hide EncodeElement, CueElement, Flat, CueElements, OffsetOf;
    var pts: Bytes := [];
    WholeSeq(points);
    NoMorePoints(points, video, offsets, Flat(CueElements(points, video, offsets)));
    for i := 0 to |cues|
      invariant Flat(CueElements(points, video, offsets)) == pts + Flat(CueElements(points[i..], video, offsets))
    {
      var q := cues[i];
      var pt := CuePointBytes(q.time, video, q.c.newOffset);
      PointsNext(points, i, video, offsets, pts);
      pts := pts + pt;
    }
    NoMorePoints(points, video, offsets, pts);
    b := AppendElement([], ID_CUES, pts);
    assert b == EncodeElement(ID_CUES, pts);
  }

  lemma PointsNext(points: seq<NewCue>, i: nat, video: nat, offsets: seq<int>, got: Bytes)
    requires i < |points|
    ensures got + Flat(CueElements(points[i..], video, offsets)) ==
      got + CueElement(points[i].time, video, OffsetOf(offsets, points[i].cluster)).raw +
        Flat(CueElements(points[i + 1..], video, offsets))
  {
    hide CueElement, OffsetOf;
    assert points[i..][1..] == points[i + 1..];
    var e, rest := CueElement(points[i].time, video, OffsetOf(offsets, points[i].cluster)),
      CueElements(points[i + 1..], video, offsets);
    assert ([e] + rest)[1..] == rest;
    Assoc(got, e.raw, Flat(rest));
  }

  lemma NoMorePoints(points: seq<NewCue>, video: nat, offsets: seq<int>, got: Bytes)
    ensures got + Flat(CueElements(points[|points|..], video, offsets)) == got && [] + got == got
  {
  }

  // ---------------------------------------------------------------- assemble

  lemma {:induction false} ClusterPartsNext(plan: seq<Planned>, origin: int, i: nat)
    requires i < |plan|
    ensures ClusterParts(plan[..i + 1], origin) ==
      ClusterParts(plan[..i], origin) + [Literal(NewHeader(plan[i], origin))] + plan[i].body
  {
    hide NewHeader;
    if i == 0 {
      assert plan[..1][0] == plan[0] && plan[..1][1..] == [] && plan[..0] == [];
      assert ClusterParts([], origin) == [];
    } else {
      ClusterPartsNext(plan[1..], origin, i - 1);
      assert plan[..i + 1][1..] == plan[1..][..i] && plan[..i][1..] == plan[1..][..i - 1];
      var h, b, rest := [Literal(NewHeader(plan[0], origin))], plan[0].body, ClusterParts(plan[1..][..i - 1], origin);
      Assoc(h + b, rest, [Literal(NewHeader(plan[i], origin))]);
      Assoc(h + b, rest + [Literal(NewHeader(plan[i], origin))], plan[i].body);
    }
  }

  lemma AppendAllNext(parts: seq<Part>, done: seq<Part>, p: Part)
    ensures AppendAll(parts, done + [p]) == AppendPart(AppendAll(parts, done), p)
  {
    hide AppendPart;
    assert (done + [p])[..|done|] == done;
  }

  /** The clusters' headers and bodies, appended to the list. */
  method AppendClusters(list: PartList, clusters: seq<SourceCluster>, origin: int, ghost first: seq<Part>,
          ghost done: seq<Part>)
    requires list.parts == AppendAll(first, done)
    requires forall i :: 0 <= i < |clusters| ==> clusters[i].newHeader == NewHeader(clusters[i].Plan(), origin)
    modifies list
    ensures list.parts == AppendAll(first, done + ClusterParts(old(PlanOf(clusters)), origin))
  {
    hide AppendPart, NewHeader, AppendAll, ClusterParts;
    ghost var plan := PlanOf(clusters);
    NoClusterParts(plan, origin, done);
    for i := 0 to |clusters|
      invariant list.parts == AppendAll(first, done + ClusterParts(plan[..i], origin))
    {
      var c := clusters[i];
      ghost var sofar := done + ClusterParts(plan[..i], origin);
      list.Append(Literal(c.newHeader));
      AppendAllNext(first, sofar, Literal(c.newHeader));
      sofar := sofar + [Literal(c.newHeader)];
      assert c.body[..0] == [] && sofar + [] == sofar;
      for j := 0 to |c.body|
        invariant list.parts == AppendAll(first, sofar + c.body[..j])
      {
        list.Append(c.body[j]);
        AppendAllNext(first, sofar + c.body[..j], c.body[j]);
        Assoc(sofar, c.body[..j], [c.body[j]]);
        assert c.body[..j + 1] == c.body[..j] + [c.body[j]];
      }
      WholeSeq(c.body);
      ClusterPartsNext(plan, origin, i);
      Assoc(done, ClusterParts(plan[..i], origin), [Literal(c.newHeader)]);
      Assoc(done, ClusterParts(plan[..i], origin) + [Literal(c.newHeader)], c.body);
    }
    WholeSeq(plan);
  }

  lemma NoClusterParts(plan: seq<Planned>, origin: int, done: seq<Part>)
    ensures done + ClusterParts(plan[..0], origin) == done
  {
    assert plan[..0] == [];
  }

  /** FrameOf, one field after the other. */
  lemma FrameFields(m: Meta, plan: seq<Planned>, origin: int, endT: nat, duration: Bytes, title: Bytes)
    ensures var f := FrameOf(m, plan, origin, endT, duration, title); var att := m.attachments.Some?;
      var points := NewCues(m.cues, plan, origin, endT);
      && f.info == EncodeElement(ID_INFO, Flat(NewInfo(m, duration, title)))
      && f.tracks == EncodeElement(ID_TRACKS, Flat(KeptTracks(m.tracksChildren)))
      && f.infoPos == |SeekHead(0, 0, 0, if att then Some(0) else None).raw| && f.tracksPos == f.infoPos + |f.info|
      && f.attPos == (if att then Some(f.tracksPos + |f.tracks|) else None)
      && f.cuesPos == f.tracksPos + |f.tracks| + (if att then m.attachments.value.1 else 0)
      && f.offsets == Offsets(plan, origin, f.cuesPos + |CuesElement(points, m.videoTrack, []).raw|)
      && f.seekHead == SeekHead(f.infoPos, f.tracksPos, f.cuesPos, f.attPos).raw
      && f.cues == CuesElement(points, m.videoTrack, f.offsets).raw && f.segmentLen == f.offsets[|plan|]
  {
    hide EncodeElement, Flat, Offsets, CuesElement, SeekHead, NewInfo, KeptTracks, NewCues;
  }

  /** The fields of a frame that follow from the lengths of Info and Tracks and from the cues. */
  predicate FrameFrom(f: Frame, m: Meta, plan: seq<Planned>, origin: int, points: seq<NewCue>, infoLen: nat,
          tracksLen: nat) {
    var att := m.attachments.Some?;
    && f.infoPos == |SeekHead(0, 0, 0, if att then Some(0) else None).raw| && f.tracksPos == f.infoPos + infoLen
    && f.attPos == (if att then Some(f.tracksPos + tracksLen) else None)
    && f.cuesPos == f.tracksPos + tracksLen + (if att then m.attachments.value.1 else 0)
    && f.offsets == Offsets(plan, origin, f.cuesPos + |CuesElement(points, m.videoTrack, []).raw|)
    && f.seekHead == SeekHead(f.infoPos, f.tracksPos, f.cuesPos, f.attPos).raw
    && f.cues == CuesElement(points, m.videoTrack, f.offsets).raw && f.segmentLen == f.offsets[|plan|]
  }

  /** Places the clusters: one pass, the positions being of fixed width. */
  method Place(s: Source, clusters: seq<SourceCluster>, origin: int, cues: seq<Cue>, ghost points: seq<NewCue>,
          infoLen: nat, tracksLen: nat, ghost f: Frame)
    returns (seekHead: Bytes, cuesEl: Bytes, segmentLen: int)
    requires Distinct(clusters) && PlacedBy(clusters, []) && Links(cues, points, clusters)
    requires forall i :: 0 <= i < |clusters| ==> clusters[i].newHeader == NewHeader(clusters[i].Plan(), origin)
    requires FrameFrom(f, s.AsMeta(), PlanOf(clusters), origin, points, infoLen, tracksLen)
    modifies clusters`newOffset
    ensures seekHead == f.seekHead && cuesEl == f.cues && segmentLen == f.segmentLen
    ensures PlacedBy(clusters, f.offsets) && PlanOf(clusters) == old(PlanOf(clusters))
  {
    hide Offsets, CuesElement, SeekHead, PlacedBy, Links, Distinct, PlanOf, NewHeader;
    var attPos: Option<int> := if s.attachments.Some? then Some(0) else None;
    seekHead := SeekHeadElement(0, 0, 0, attPos);
    var infoPos := |seekHead|;
    var tracksPos := infoPos + infoLen;
    var cuesPos := tracksPos + tracksLen;
    if s.attachments.Some? {
      attPos := Some(cuesPos);
      cuesPos := cuesPos + s.attachments.value.1;
    }
    cuesEl := CuesBytes(cues, s.videoTrack, clusters, points, []);
    segmentLen := SetOffsets(clusters, cuesPos + |cuesEl|, origin);
    seekHead := SeekHeadElement(infoPos, tracksPos, cuesPos, attPos);
    cuesEl := CuesBytes(cues, s.videoTrack, clusters, points, f.offsets);
  }

  lemma FrameIsFrom(m: Meta, plan: seq<Planned>, origin: int, endT: nat, duration: Bytes, title: Bytes)
    ensures var f := FrameOf(m, plan, origin, endT, duration, title);
      FrameFrom(f, m, plan, origin, NewCues(m.cues, plan, origin, endT), |f.info|, |f.tracks|)
      && f.info == EncodeElement(ID_INFO, Flat(NewInfo(m, duration, title)))
      && f.tracks == EncodeElement(ID_TRACKS, Flat(KeptTracks(m.tracksChildren)))
  {
    hide FrameOf, EncodeElement, Flat, Offsets, CuesElement, SeekHead, NewInfo, KeptTracks, NewCues;
    FrameFields(m, plan, origin, endT, duration, title);
  }

  /** The SeekHead, Info, Tracks and Cues, and the clusters' headers and places. */
  method LayFrame(s: Source, clusters: seq<SourceCluster>, origin: int, endT: nat, duration: Bytes, title: Bytes,
          ghost f: Frame)
    returns (seekHead: Bytes, infoEl: Bytes, tracksEl: Bytes, cuesEl: Bytes, segmentLen: int)
    requires Distinct(clusters) && SameOffsets(clusters) && forall c :: c in clusters ==> c.newOffset == 0
    requires f == FrameOf(s.AsMeta(), PlanOf(clusters), origin, endT, duration, title)
    modifies clusters`newHeader, clusters`newOffset
    ensures PlanOf(clusters) == old(PlanOf(clusters)) && PlacedBy(clusters, f.offsets)
    ensures forall i :: 0 <= i < |clusters| ==> clusters[i].newHeader == NewHeader(clusters[i].Plan(), origin)
    ensures seekHead == f.seekHead && infoEl == f.info && tracksEl == f.tracks && cuesEl == f.cues
      && segmentLen == f.segmentLen
  {
    hide EncodeElement, Flat, NewHeader, NewInfo, KeptTracks, NewCues, PlacedBy, SameOffsets, Links, FrameOf, FrameFrom,
         Distinct, PlanOf;
    FrameIsFrom(s.AsMeta(), PlanOf(clusters), origin, endT, duration, title);
    infoEl := InfoElement(s, duration, title);
    tracksEl := TracksElement(s);
    Unplaced(clusters);
    SetHeaders(clusters, origin);
    var cues, points := CuesOf(s, clusters, origin, endT);
    seekHead, cuesEl, segmentLen := Place(s, clusters, origin, cues, points, |infoEl|, |tracksEl|, f);
  }

  lemma Unplaced(clusters: seq<SourceCluster>)
    requires forall c :: c in clusters ==> c.newOffset == 0
    ensures PlacedBy(clusters, [])
  {
  }

  /** The parts behind a head: attachments, Cues, clusters. */
  method JoinParts(s: Source, clusters: seq<SourceCluster>, origin: int, head: Bytes, cuesEl: Bytes)
    returns (parts: seq<Part>)
    requires forall i :: 0 <= i < |clusters| ==> clusters[i].newHeader == NewHeader(clusters[i].Plan(), origin)
    ensures parts == AppendAll([Literal(head)],
      AttachmentParts(s.AsMeta()) + [Literal(cuesEl)] + ClusterParts(PlanOf(clusters), origin))
  {
    hide AppendAll, ClusterParts, AppendPart, NewHeader, PlanOf;
    var list := new PartList();
    list.parts := [Literal(head)];
    ghost var first := [Literal(head)];
    ghost var done: seq<Part> := [];
    NothingAppended(first);
    if s.attachments.Some? {
      var att := Range(s.attachments.value.0, s.attachments.value.1);
      list.Append(att);
      AppendAllNext(first, done, att);
      done := done + [att];
    }
    assert done == AttachmentParts(s.AsMeta());
    list.Append(Literal(cuesEl));
    AppendAllNext(first, done, Literal(cuesEl));
    done := done + [Literal(cuesEl)];
    AppendClusters(list, clusters, origin, first, done);
    parts := list.parts;
  }

  function AttachmentParts(m: Meta): seq<Part> {
    if m.attachments.Some? then [Range(m.attachments.value.0, m.attachments.value.1)] else []
  }

  lemma AssembleIs(m: Meta, plan: seq<Planned>, origin: int, endT: nat, duration: Bytes, title: Bytes)
    ensures var f := FrameOf(m, plan, origin, endT, duration, title);
      Assemble(m, plan, origin, endT, duration, title)
        == AppendAll([Literal(m.ebmlHeader + EncodeID(ID_SEGMENT) + EncodeSize(U64(f.segmentLen), 8) + f.seekHead +
          f.info + f.tracks)],
                     AttachmentParts(m) + [Literal(f.cues)] + ClusterParts(plan, origin))
  {
    hide FrameOf, AppendAll, ClusterParts, EncodeID, EncodeSize, U64;
  }

  /** assemble: the whole parts list of the clip. */
  method LayOut(s: Source, clusters: seq<SourceCluster>, origin: int, endT: nat, duration: Bytes, title: Bytes)
    returns (parts: seq<Part>)
    requires Distinct(clusters) && SameOffsets(clusters) && forall c :: c in clusters ==> c.newOffset == 0
    modifies clusters`newHeader, clusters`newOffset
    ensures parts == Assemble(s.AsMeta(), old(PlanOf(clusters)), origin, endT, duration, title)
    ensures PlanOf(clusters) == old(PlanOf(clusters))
    ensures PlacedBy(clusters, FrameOf(s.AsMeta(), PlanOf(clusters), origin, endT, duration, title).offsets)
    ensures forall i :: 0 <= i < |clusters| ==> clusters[i].newHeader == NewHeader(clusters[i].Plan(), origin)
  {
    hide AppendAll, ClusterParts, EncodeID, EncodeSize, FrameOf, NewHeader, PlanOf, Assemble, U64, Distinct,
         SameOffsets, PlacedBy;
    AssembleIs(s.AsMeta(), PlanOf(clusters), origin, endT, duration, title);
    ghost var f := FrameOf(s.AsMeta(), PlanOf(clusters), origin, endT, duration, title);
    var seekHead, infoEl, tracksEl, cuesEl, segmentLen := LayFrame(s, clusters, origin, endT, duration, title, f);
    var head := s.ebmlHeader + EncodeID(ID_SEGMENT);
    head := AppendSizeWidth(head, U64(segmentLen), 8);
    head := head + seekHead + infoEl + tracksEl;
    parts := JoinParts(s, clusters, origin, head, cuesEl);
  }

  lemma NothingAppended(first: seq<Part>)
    ensures AppendAll(first, []) == first
  {
  }

  // ---------------------------------------------------------------- BuildClip

  lemma {:induction false} ValuesAt(cs: seq<SourceCluster>)
    ensures |Values(cs)| == |cs| && forall i :: 0 <= i < |cs| ==> Values(cs)[i] == cs[i].source
  {
    if cs != [] { ValuesAt(cs[..|cs| - 1]); }
  }

  /** Every cluster is planned as in plan. */
  ghost predicate Planning(clusters: seq<SourceCluster>, plan: seq<Planned>)
    reads clusters
  {
    |plan| == |clusters| && forall i :: 0 <= i < |clusters| ==> clusters[i].Plan() == plan[i]
  }

  /** The body of the first cluster, and its timestamp moved to the keyframe. */
  method SetFirst(r: Bytes, s: Source, first: SourceCluster, key: CuePoint, endT: nat, only: bool)
    returns (err: Option<Error>)
    requires first.Fresh()
    modifies first`body, first`timestamp
    ensures match ReadBlocks(r, first.source)
            case Err(x) => err == Some(x)
            case Ok(bs) =>
              match FirstBody(first.source, FirstKept(bs, s.videoTrack, key, endT, only), key)
              case Err(x) => err == Some(x)
              case Ok(body) => err == None && first.Plan() == Planned(first.source, key.time, body)
  {
    hide ReadBlocks, KeepFrom, KeepUntil, RebasedParts, BlockParts, I64;
    var firstBlocks := LoadBlocks(r, first);
    if firstBlocks.Err? {
      return Some(firstBlocks.error);
    }
    var keep := FilterFrom(firstBlocks.value, s.videoTrack, I64(key.time));
    if only {
      keep := FilterUntil(keep, s.videoTrack, I64(endT));
    }
    if first.timestamp == key.time {
      first.body := RangeParts(keep);
    } else {
      var rebased := RebaseParts(keep, I64(key.time));
      if rebased.Err? {
        return Some(rebased.error);
      }
      first.body := rebased.value;
      first.timestamp := key.time;
    }
    return None;
  }

  method SetLast(r: Bytes, s: Source, last: SourceCluster, endT: nat) returns (err: Option<Error>)
    requires last.Fresh()
    modifies last`body
    ensures match ReadBlocks(r, last.source)
            case Err(x) => err == Some(x)
            case Ok(bs) =>
              err == None &&
              last.Plan() == Planned(last.source, last.source.timestamp,
                BlockParts(KeepUntil(bs, s.videoTrack, I64(endT), false)))
  {
    hide ReadBlocks, KeepUntil, BlockParts, I64;
    var lastBlocks := LoadBlocks(r, last);
    if lastBlocks.Err? {
      return Some(lastBlocks.error);
    }
    var keep := FilterUntil(lastBlocks.value, s.videoTrack, I64(endT));
    last.body := RangeParts(keep);
    return None;
  }

  /** A cluster referenced whole. */
  function WholePlan(c: Cluster): Planned {
    Planned(c, c.timestamp, [Range(c.blocksOff, c.end - c.blocksOff)])
  }

  method SetMiddle(clusters: seq<SourceCluster>)
    requires Distinct(clusters)
    requires forall i :: 0 < i < |clusters| - 1 ==> clusters[i].Fresh()
    modifies clusters`body
    ensures forall i :: 0 < i < |clusters| - 1 ==> clusters[i].Plan() == WholePlan(clusters[i].source)
    ensures |clusters| > 0 ==> clusters[0].Plan() == old(clusters[0].Plan())
    ensures |clusters| > 0 ==> clusters[|clusters| - 1].Plan() == old(clusters[|clusters| - 1].Plan())
  {
    var n := |clusters| - 1;
    if n < 2 {
      return;
    }
    for i := 1 to n
      invariant forall j :: 0 < j < i ==> clusters[j].body == WholePlan(clusters[j].source).body
      invariant clusters[0].body == old(clusters[0].body) && clusters[n].body == old(clusters[n].body)
    {
      var c := clusters[i];
      c.body := [Range(c.blocksOff, c.end - c.blocksOff)];
    }
  }

  /** Fills in the clusters' bodies as planned. */
  method SetBodies(r: Bytes, s: Source, clusters: seq<SourceCluster>, key: CuePoint, endT: nat)
    returns (err: Option<Error>)
    requires clusters != [] && Distinct(clusters) && AllFresh(clusters)
    modifies clusters`body, clusters`timestamp
    ensures match PlanClusters(r, s.videoTrack, key, endT, old(Values(clusters)))
            case Err(x) => err == Some(x)
            case Ok(plan) => err == None && Planning(clusters, plan)
  {
    hide ReadBlocks, FirstKept, FirstBody, KeepUntil, BlockParts, I64, Values, PlanClusters;
    ghost var cs := Values(clusters);
    ValuesAt(clusters);
    var n := |clusters|;
    ghost var planned := PlanClusters(r, s.videoTrack, key, endT, cs);
    PlanCases(r, s.videoTrack, key, endT, cs);
    var first, last := clusters[0], clusters[n - 1];
    err := SetFirst(r, s, first, key, endT, first == last);
    if err.Some? {
      return err;
    }
    if first != last {
      err := SetLast(r, s, last, endT);
      if err.Some? {
        return err;
      }
    }
    SetMiddle(clusters);
    ghost var plan := planned.value;
    PlanShape(r, s.videoTrack, key, endT, cs);
    forall i | 0 <= i < n
      ensures clusters[i].Plan() == plan[i]
    {
      if 0 < i < n - 1 { assert clusters[i].Plan() == WholePlan(cs[i]); }
    }
    return None;
  }

  /** When planning fails, and how. */
  lemma PlanCases(r: Bytes, video: nat, key: CuePoint, endT: nat, cs: seq<Cluster>)
    requires cs != []
    ensures var n := |cs|; var plan := PlanClusters(r, video, key, endT, cs);
      match ReadBlocks(r, cs[0])
      case Err(x) => plan == Err(x)
      case Ok(bs) =>
        match FirstBody(cs[0], FirstKept(bs, video, key, endT, n == 1), key)
        case Err(x) => plan == Err(x)
        case Ok(_) =>
          if n == 1 then plan.Ok? else
          match ReadBlocks(r, cs[n - 1])
          case Err(x) => plan == Err(x)
          case Ok(_) => plan.Ok?
  {
    hide ReadBlocks, FirstKept, FirstBody, KeepUntil, BlockParts, I64, Middle;
  }

  /** No cluster's timestamp is before the keyframe. */
  method CheckOrder(clusters: seq<SourceCluster>, origin: int) returns (ok: bool)
    ensures ok <==> NoneBefore(PlanOf(clusters), origin)
  {
    ghost var plan := PlanOf(clusters);
    for i := 0 to |clusters|
      invariant forall j :: 0 <= j < i ==> I64(plan[j].timestamp) >= origin
    {
      if I64(clusters[i].timestamp) < origin {
        return false;
      }
    }
    return true;
  }

  lemma FreshOffsets(clusters: seq<SourceCluster>)
    requires AllFresh(clusters)
    ensures SameOffsets(clusters) && forall c :: c in clusters ==> c.newOffset == 0
  {
  }

  /** The plan of the clusters from the key cue on. */
  function PlanFrom(r: Bytes, video: nat, segmentEnd: nat, key: CuePoint, endT: nat): Result<seq<Planned>> {
    var cs :- CollectClusters(r, key.clusterOff, segmentEnd, endT);
    PlanClusters(r, video, key, endT, cs)
  }

  /** Collects the clusters and fills in their bodies. */
  method PlanObjects(r: Bytes, s: Source, key: CuePoint, endT: nat)
    returns (clusters: seq<SourceCluster>, err: Option<Error>)
    ensures match PlanFrom(r, s.videoTrack, s.segmentEnd, key, endT)
            case Err(x) => err == Some(x)
            case Ok(plan) => err == None && PlanOf(clusters) == plan
    ensures Distinct(clusters) && SameOffsets(clusters)
    ensures forall i :: 0 <= i < |clusters| ==> fresh(clusters[i]) && clusters[i].newOffset == 0
  {
    hide CollectClusters, PlanClusters, I64, Distinct, AllFresh, PlanOf, Values, Planning;
    clusters, err := s.CollectFrom(r, key.clusterOff, endT);
    FreshOffsets(clusters);
    if err.Some? {
      return clusters, err;
    }
    ValuesAt(clusters);
    err := SetBodies(r, s, clusters, key, endT);
    if err.None? {
      PlannedBy(clusters, PlanFrom(r, s.videoTrack, s.segmentEnd, key, endT).value);
    }
  }

  lemma BuildCases(r: Bytes, m: Meta, startT: nat, end: nat, dur: Option<nat>, duration: Bytes, title: Bytes)
    requires m.cues != []
    ensures var endT := CutEnd(end, dur); var key := KeyCue(m.cues, startT);
      Mkv.BuildClip(r, m, startT, end, dur, duration, title) ==
        if (dur.Some? && startT >= dur.value) || key.time >= endT then Err(OutOfRange) else
        match PlanFrom(r, m.videoTrack, m.segmentEnd, key, endT)
        case Err(x) => Err(x)
        case Ok(plan) =>
          if NoneBefore(plan, I64(key.time)) then Ok(Assemble(m, plan, I64(key.time), endT, duration, title))
            else Err(Unsupported)
  {
    hide CollectClusters, PlanClusters, Assemble, I64, NoneBefore, KeyCue, CutEnd;
  }

  /** BuildClip from the ticks on: plans the clusters in place, checks their order, and lays the clip out. */
  method BuildClip(r: Bytes, s: Source, startT: nat, end: nat, dur: Option<nat>, duration: Bytes, title: Bytes)
    returns (res: Result<seq<Part>>)
    requires s.cues != [] && Sorted(s.cues)
    ensures res == Mkv.BuildClip(r, s.AsMeta(), startT, end, dur, duration, title)
  {
    hide PlanFrom, Assemble, I64, NoneBefore, Sorted, Distinct, SameOffsets, PlanOf, Mkv.BuildClip, PlacedBy, FrameOf,
         NewHeader;
    BuildCases(r, s.AsMeta(), startT, end, dur, duration, title);
    var endT := end;
    if dur.Some? {
      if startT >= dur.value {
        return Err(OutOfRange);
      }
      endT := if dur.value < end then dur.value else end;
    }
    var ci := s.SearchCues(startT);
    FirstAfterInside(s.cues, startT);
    if ci > 0 {
      ci := ci - 1;
    }
    var key := s.cues[ci];
    if key.time >= endT {
      return Err(OutOfRange);
    }
    var clusters, bad := PlanObjects(r, s, key, endT);
    if bad.Some? {
      return Err(bad.value);
    }
    var origin := I64(key.time);
    var ok := CheckOrder(clusters, origin);
    if !ok {
      return Err(Unsupported);
    }
    var parts := LayOut(s, clusters, origin, endT, duration, title);
    return Ok(parts);
  }

  lemma PlannedBy(clusters: seq<SourceCluster>, plan: seq<Planned>)
    requires Planning(clusters, plan)
    ensures PlanOf(clusters) == plan
  {
  }
}
