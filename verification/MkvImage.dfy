/** The bytes of an assembled clip: what stands where, and its clusters read back. */
module MkvImage {
  import opened Basics
  import opened Ebml
  import opened Layouts
  import opened Mkv
  import opened MkvBody
  import opened MkvCluster
  import opened MkvPlan

  function BodyBytes(r: Bytes, p: Planned): Bytes { Flatten(p.body, r) }

  /** The clip's clusters end to end. */
  function Image(r: Bytes, plan: seq<Planned>, origin: int): Bytes {
    if plan == [] then [] else NewHeader(plan[0], origin) + BodyBytes(r, plan[0]) + Image(r, plan[1..], origin)
  }

  /** The clip's bytes, stated without parts: header, attachments, cues, clusters. */
  function ClipBytes(r: Bytes, m: Meta, f: Frame, plan: seq<Planned>, origin: int): Bytes {
    HeadBytes(m, f) + AttachmentBytes(r, m) + f.cues + Image(r, plan, origin)
  }

  function AttachmentBytes(r: Bytes, m: Meta): Bytes {
    match m.attachments
    case Some((off, n)) => if off + n <= |r| then r[off..off + n] else []
    case None => []
  }

  // ---------------------------------------------------------------- the parts are those bytes

  predicate BodiesOk(r: Bytes, plan: seq<Planned>) {
    forall i :: 0 <= i < |plan| ==>
      AllAppendable(plan[i].body, |r|) && Total(plan[i].body) == |BodyBytes(r, plan[i])|
  }

  predicate AttachmentsOk(r: Bytes, m: Meta) {
    match m.attachments
    case Some((off, n)) => n > 0 && off + n <= |r|
    case None => true
  }

  lemma BodyOkParts(r: Bytes, p: Planned, k: Kept, origin: int)
    requires BodyOk(r, p, k, origin)
    ensures AllAppendable(p.body, |r|) && Total(p.body) == |BodyBytes(r, p)|
    ensures k.Whole? ==> p.c.blocksOff <= p.c.end <= |r| && BodyBytes(r, p) == r[p.c.blocksOff..p.c.end]
  {
    hide StartsBlocks, AllStand, Fits, NewElements, Flat, I64, Shifted;
    match k {
      case Listed(bs, base) =>
        FlattenLength(p.body, r);
      case Whole =>
        var part := Range(p.c.blocksOff, p.c.end - p.c.blocksOff);
        assert p.body[..0] == [];
        assert Flatten(p.body, r) == [] + PartBytes(part, r);
        assert Total(p.body) == part.len;
    }
  }

  lemma AppendableConcat(a: seq<Part>, b: seq<Part>, dataSize: int)
    requires AllAppendable(a, dataSize) && AllAppendable(b, dataSize)
    ensures AllAppendable(a + b, dataSize)
  {
    hide Appendable;
  }

  lemma LiteralOk(b: Bytes, dataSize: int, file: Bytes)
    ensures PartOk(Literal(b), dataSize) && AllAppendable([Literal(b)], dataSize) && AllOk([Literal(b)], dataSize)
    ensures Flatten([Literal(b)], file) == b
  {
    assert [Literal(b)][..0] == [];
    assert Flatten([Literal(b)], file) == [] + b;
  }

  lemma {:induction false} ClusterPartsBytes(r: Bytes, plan: seq<Planned>, origin: int)
    requires BodiesOk(r, plan)
    ensures AllAppendable(ClusterParts(plan, origin), |r|)
    ensures Flatten(ClusterParts(plan, origin), r) == Image(r, plan, origin)
  {
    hide AllAppendable, Flatten, NewHeader, Total;
    if plan == [] {
      EmptyBody(r);
      NothingAppendable(|r|);
    } else {
      var head, body, rest := [Literal(NewHeader(plan[0], origin))], plan[0].body, ClusterParts(plan[1..], origin);
      ClusterPartsBytes(r, plan[1..], origin);
      LiteralOk(NewHeader(plan[0], origin), |r|, r);
      AppendableConcat(head, body, |r|);
      AppendableConcat(head + body, rest, |r|);
      FlattenConcat(head + body, rest, r);
      FlattenConcat(head, body, r);
    }
  }

  lemma NothingAppendable(dataSize: int)
    ensures AllAppendable([], dataSize)
  {
  }

  lemma AttachmentPart(r: Bytes, m: Meta)
    requires AttachmentsOk(r, m)
    ensures var att := if m.attachments.Some? then [Range(m.attachments.value.0, m.attachments.value.1)] else [];
      AllAppendable(att, |r|) && Flatten(att, r) == AttachmentBytes(r, m)
  {
    hide AllAppendable, Flatten;
    if m.attachments.Some? {
      OneRange(r, m.attachments.value.0, m.attachments.value.1);
    } else {
      NothingAppendable(|r|);
      EmptyBody(r);
    }
  }

  lemma OneRange(r: Bytes, off: nat, n: nat)
    requires n > 0 && off + n <= |r|
    ensures AllAppendable([Range(off, n)], |r|) && Flatten([Range(off, n)], r) == r[off..off + n]
  {
    var part := Range(off, n);
    assert [part][..0] == [];
    assert Flatten([part], r) == [] + PartBytes(part, r);
  }

  /** Assembling gives parts that pass Finalize, cannot be merged further, and hold exactly the clip's bytes. */
  lemma AssembledBytes(r: Bytes, m: Meta, plan: seq<Planned>, origin: int, endT: nat, duration: Bytes, title: Bytes)
    requires BodiesOk(r, plan) && AttachmentsOk(r, m)
    ensures var parts := Assemble(m, plan, origin, endT, duration, title);
      && AllOk(parts, |r|) && Compact(parts)
      && Flatten(parts, r) == ClipBytes(r, m, FrameOf(m, plan, origin, endT, duration, title), plan, origin)
  {
    hide Flatten, AllOk, AllAppendable, FrameOf, ClusterParts, Image, AttachmentBytes, BodiesOk, AttachmentsOk,
         HeadBytes, AppendAll, Compact;
    var f := FrameOf(m, plan, origin, endT, duration, title);
    var att := if m.attachments.Some? then [Range(m.attachments.value.0, m.attachments.value.1)] else [];
    var cues, clusters := [Literal(f.cues)], ClusterParts(plan, origin);
    AttachmentPart(r, m);
    LiteralOk(f.cues, |r|, r);
    LiteralOk(HeadBytes(m, f), |r|, r);
    ClusterPartsBytes(r, plan, origin);
    AppendableConcat(att, cues, |r|);
    AppendableConcat(att + cues, clusters, |r|);
    FlattenConcat(att + cues, clusters, r);
    FlattenConcat(att, cues, r);
    AppendAllAdds([Literal(HeadBytes(m, f))], att + cues + clusters, r);
    HeadCompact(m, f);
    AppendAllCompact([Literal(HeadBytes(m, f))], att + cues + clusters, r);
    var h, a, c, i := HeadBytes(m, f), AttachmentBytes(r, m), f.cues, Image(r, plan, origin);
    Assoc(h, a + c, i);
    Assoc(h, a, c);
  }

  lemma HeadCompact(m: Meta, f: Frame)
    ensures Compact([Literal(HeadBytes(m, f))])
  {
    hide EncodeID, EncodeSize;
  }

  // ---------------------------------------------------------------- fixed lengths

  lemma EncodedLength(id: nat, a: Bytes, b: Bytes)
    requires |a| == |b|
    ensures |EncodeElement(id, a)| == |EncodeElement(id, b)|
  {
    hide EncodeID, EncodeSize, MinSizeWidth;
  }

  lemma SeekLength(id: nat, a: int, b: int)
    ensures |SeekElement(id, a).raw| == |SeekElement(id, b).raw|
  {
    hide EncodeElement, EncodeID, U64, BeBytes;
    EncodedLength(ID_SEEK_POSITION, BeBytes(U64(a), 8), BeBytes(U64(b), 8));
    var head := EncodeElement(ID_SEEK_ID, EncodeID(id));
    EncodedLength(ID_SEEK, head + EncodeUintWidth(ID_SEEK_POSITION, U64(a), 8),
      head + EncodeUintWidth(ID_SEEK_POSITION, U64(b), 8));
  }

  lemma FlatLengths(a: seq<Element>, b: seq<Element>)
    requires |a| == |b| && forall i :: 0 <= i < |a| ==> |a[i].raw| == |b[i].raw|
    ensures |Flat(a)| == |Flat(b)|
  {
    if a != [] { FlatLengths(a[1..], b[1..]); }
  }

  /** The SeekHead's length does not depend on the positions in it. */
  lemma SeekHeadLength(a: int, b: int, c: int, d: Option<int>, a': int, b': int, c': int, d': Option<int>)
    requires d.Some? <==> d'.Some?
    ensures |SeekHead(a, b, c, d).raw| == |SeekHead(a', b', c', d').raw|
  {
    hide EncodeElement, SeekElement, Flat;
    SeekLength(ID_INFO, a, a');
    SeekLength(ID_TRACKS, b, b');
    SeekLength(ID_CUES, c, c');
    if d.Some? { SeekLength(ID_ATTACHMENTS, d.value, d'.value); }
    var x, y := SeekElements(a, b, c, d), SeekElements(a', b', c', d');
    FlatLengths(x, y);
    EncodedLength(ID_SEEK_HEAD, Flat(x), Flat(y));
  }

  lemma CueLength(time: nat, video: nat, a: int, b: int)
    ensures |CueElement(time, video, a).raw| == |CueElement(time, video, b).raw|
  {
    hide EncodeElement, EncodeUint, U64, BeBytes;
    EncodedLength(ID_CUE_CLUSTER_POSITION, BeBytes(U64(a), 8), BeBytes(U64(b), 8));
    EncodedLength(ID_CUE_TRACK_POSITIONS, CueTarget(video, a), CueTarget(video, b));
    var t := EncodeUint(ID_CUE_TIME, time);
    EncodedLength(ID_CUE_POINT, t + EncodeElement(ID_CUE_TRACK_POSITIONS, CueTarget(video, a)),
                  t + EncodeElement(ID_CUE_TRACK_POSITIONS, CueTarget(video, b)));
  }

  lemma {:induction false} CueElementsLength(cues: seq<NewCue>, video: nat, s: seq<int>, t: seq<int>)
    ensures |Flat(CueElements(cues, video, s))| == |Flat(CueElements(cues, video, t))|
  {
    hide CueElement;
    if cues != [] {
      CueLength(cues[0].time, video, OffsetOf(s, cues[0].cluster), OffsetOf(t, cues[0].cluster));
      CueElementsLength(cues[1..], video, s, t);
    }
  }

  /** Nor does the length of the Cues. */
  lemma CuesLength(cues: seq<NewCue>, video: nat, s: seq<int>, t: seq<int>)
    ensures |CuesElement(cues, video, s).raw| == |CuesElement(cues, video, t).raw|
  {
    hide EncodeElement, CueElements, Flat;
    CueElementsLength(cues, video, s, t);
    EncodedLength(ID_CUES, Flat(CueElements(cues, video, s)), Flat(CueElements(cues, video, t)));
  }

  // ---------------------------------------------------------------- what stands where

  /** Where the Segment payload of the clip starts. */
  function SegmentStart(m: Meta): nat { |m.ebmlHeader| + 12 }

  lemma FirstBodyLength(r: Bytes, plan: seq<Planned>)
    requires BodiesOk(r, plan) && plan != []
    ensures Total(plan[0].body) == |BodyBytes(r, plan[0])| && BodiesOk(r, plan[1..])
  {
    hide BodyBytes, Total, AllAppendable;
  }

  lemma OffsetsLast(plan: seq<Planned>, origin: int, pos: int)
    ensures Offsets(plan, origin, pos)[|plan|] ==
      if plan == [] then pos
      else Offsets(plan[1..], origin, pos + |NewHeader(plan[0], origin)| + Total(plan[0].body))[|plan| - 1]
  {
    hide NewHeader, Total;
  }

  lemma ImageLength(r: Bytes, plan: seq<Planned>, origin: int)
    ensures |Image(r, plan, origin)| ==
      if plan == [] then 0 else |NewHeader(plan[0], origin)| + |BodyBytes(r, plan[0])| + |Image(r, plan[1..], origin)|
  {
    hide NewHeader, BodyBytes;
  }

  lemma {:induction false} OffsetsEnd(r: Bytes, plan: seq<Planned>, origin: int, pos: int)
    requires BodiesOk(r, plan)
    ensures Offsets(plan, origin, pos)[|plan|] == pos + |Image(r, plan, origin)|
  {
    hide NewHeader, BodyBytes, Total, BodiesOk, Image, Offsets;
    OffsetsLast(plan, origin, pos);
    ImageLength(r, plan, origin);
    if plan != [] {
      FirstBodyLength(r, plan);
      OffsetsEnd(r, plan[1..], origin, pos + |NewHeader(plan[0], origin)| + Total(plan[0].body));
    }
  }

  /** Cluster i stands at its offset, followed by the clusters after it. */
  lemma {:induction false} ClusterPlace(clip: Bytes, start: nat, r: Bytes, plan: seq<Planned>, origin: int, pos: int,
          i: nat)
    requires BodiesOk(r, plan) && i < |plan| && start + pos >= 0
    requires At(clip, start + pos, Image(r, plan, origin))
    ensures var o := Offsets(plan, origin, pos);
      && o[i] >= pos && o[i + 1] == o[i] + |NewHeader(plan[i], origin)| + |BodyBytes(r, plan[i])|
      && At(clip, start + o[i], NewHeader(plan[i], origin) + (BodyBytes(r, plan[i]) + Image(r, plan[i + 1..], origin)))
  {
    hide NewHeader, BodyBytes, Total, AllAppendable, At;
    var h, b, rest := NewHeader(plan[0], origin), BodyBytes(r, plan[0]), Image(r, plan[1..], origin);
    Assoc(h, b, rest);
    assert Total(plan[0].body) == |b|;
    var pos' := pos + |h| + |b|;
    if i > 0 {
      AtSplit(clip, start + pos, h + b, rest);
      ClusterPlace(clip, start, r, plan[1..], origin, pos', i - 1);
      assert plan[1..][i..] == plan[i + 1..];
    } else {
      assert Offsets(plan, origin, pos)[1] == Offsets(plan[1..], origin, pos')[0];
    }
  }

  /** The frame's positions are the true offsets, from the Segment payload, of what they name; and the
      Segment's size is exactly the rest of the file. */
  lemma FramePlaces(r: Bytes, m: Meta, plan: seq<Planned>, origin: int, endT: nat, duration: Bytes, title: Bytes)
    requires BodiesOk(r, plan) && AttachmentsOk(r, m)
    ensures var f := FrameOf(m, plan, origin, endT, duration, title);
      var clip := ClipBytes(r, m, f, plan, origin); var s := SegmentStart(m);
      && At(clip, 0, m.ebmlHeader + (EncodeID(ID_SEGMENT) + EncodeSize(U64(f.segmentLen), 8)))
      && At(clip, s, f.seekHead) && |f.seekHead| == f.infoPos
      && At(clip, s + f.infoPos, f.info) && f.infoPos + |f.info| == f.tracksPos
      && At(clip, s + f.tracksPos, f.tracks)
      && (f.attPos.Some? <==> m.attachments.Some?)
      && (f.attPos.Some? ==> f.attPos.value == f.tracksPos + |f.tracks|)
      && f.tracksPos + |f.tracks| + |AttachmentBytes(r, m)| == f.cuesPos
      && At(clip, s + f.tracksPos + |f.tracks|, AttachmentBytes(r, m))
      && At(clip, s + f.cuesPos, f.cues) && f.offsets[0] == f.cuesPos + |f.cues|
      && At(clip, s + f.offsets[0], Image(r, plan, origin))
      && |clip| == s + f.segmentLen && f.segmentLen == f.offsets[0] + |Image(r, plan, origin)|
  {
    hide At, Image, AttachmentBytes, NewInfo, KeptTracks, NewCues, CuesElement, SeekHead, EncodeElement, EncodeID,
         EncodeSize, U64, Flat, BodiesOk, AttachmentsOk, Offsets;
    var f := FrameOf(m, plan, origin, endT, duration, title);
    FrameLengths(r, m, plan, origin, endT, duration, title);
    var clip := ClipBytes(r, m, f, plan, origin);
    var e, g := m.ebmlHeader, EncodeID(ID_SEGMENT) + EncodeSize(U64(f.segmentLen), 8);
    var a, i := AttachmentBytes(r, m), Image(r, plan, origin);
    Assoc(e, EncodeID(ID_SEGMENT), EncodeSize(U64(f.segmentLen), 8));
    assert clip == e + g + f.seekHead + f.info + f.tracks + a + f.cues + i;
    WholeAt(clip);
    AtSplit(clip, 0, e + g + f.seekHead + f.info + f.tracks + a + f.cues, i);
    AtSplit(clip, 0, e + g + f.seekHead + f.info + f.tracks + a, f.cues);
    AtSplit(clip, 0, e + g + f.seekHead + f.info + f.tracks, a);
    AtSplit(clip, 0, e + g + f.seekHead + f.info, f.tracks);
    AtSplit(clip, 0, e + g + f.seekHead, f.info);
    AtSplit(clip, 0, e + g, f.seekHead);
  }

  lemma WholeAt(b: Bytes)
    ensures At(b, 0, b)
  {
  }

  lemma FrameLengths(r: Bytes, m: Meta, plan: seq<Planned>, origin: int, endT: nat, duration: Bytes, title: Bytes)
    requires BodiesOk(r, plan) && AttachmentsOk(r, m)
    ensures var f := FrameOf(m, plan, origin, endT, duration, title);
      && |f.seekHead| == f.infoPos && f.infoPos + |f.info| == f.tracksPos
      && (f.attPos.Some? <==> m.attachments.Some?)
      && (f.attPos.Some? ==> f.attPos.value == f.tracksPos + |f.tracks|)
      && f.tracksPos + |f.tracks| + |AttachmentBytes(r, m)| == f.cuesPos
      && f.offsets[0] == f.cuesPos + |f.cues|
      && f.segmentLen == f.offsets[0] + |Image(r, plan, origin)|
  {
    hide Image, NewInfo, KeptTracks, NewCues, CuesElement, SeekHead, EncodeElement, Flat, BodiesOk;
    var f := FrameOf(m, plan, origin, endT, duration, title);
    SeekHeadLength(0, 0, 0, if m.attachments.Some? then Some(0) else None, f.infoPos, f.tracksPos, f.cuesPos, f.attPos);
    CuesLength(NewCues(m.cues, plan, origin, endT), m.videoTrack, [], f.offsets);
    OffsetsEnd(r, plan, origin, f.offsets[0]);
  }
}
