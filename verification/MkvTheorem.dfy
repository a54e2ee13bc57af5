/** What a successful BuildClip returns, from end to end: parts that pass Finalize, whose bytes open as a
    Matroska file that holds the kept blocks of the source at shifted times. */
module MkvTheorem {
  import opened Basics
  import opened Ebml
  import opened Layouts
  import opened Mkv
  import opened MkvChildren
  import opened MkvBody
  import opened MkvPlan
  import opened MkvFiles
  import MkvCluster
  import opened MkvImage
  import opened MkvClip
  import opened MkvMeta
  import opened MkvReopen
  import opened MkvCues
  import opened MkvOpen
  import opened MkvKeep

  lemma MetaAttachments(r: Bytes, m: Meta)
    requires MetaOk(r, m)
    ensures AttachmentsOk(r, m)
  {
    hide ReadHeaderAt, AllElements, HeaderOk, Sorted, Times64, VideoIn, Flat;
    if m.attachments.Some? { HeaderBounds(r, m.attachments.value.0); }
  }

  lemma MetaCues(r: Bytes, m: Meta)
    requires MetaOk(r, m)
    ensures m.cues != [] && Sorted(m.cues)
  {
    hide AllElements, HeaderOk, Sorted, Times64, VideoIn, Flat, MaybeAttachments;
  }

  /** A built clip is a ClipOf: its parts pass Finalize, are merged as far as they can be, and their bytes
      are the ones the other theorems speak of. The bound is that of an 8-byte element size. */
  lemma Built(r: Bytes, m: Meta, startT: nat, endT: nat, dur: Option<nat>, duration: Bytes, title: Bytes)
    returns (key: CuePoint, cs: seq<Cluster>, plan: seq<Planned>, f: Frame)
    requires MetaOk(r, m) && CutEnd(endT, dur) < TWO63
    requires m.cues != [] && BuildClip(r, m, startT, endT, dur, duration, title).Ok?
    requires |Flatten(BuildClip(r, m, startT, endT, dur, duration, title).value, r)| < TWO56
    ensures var parts := BuildClip(r, m, startT, endT, dur, duration, title).value; var end := CutEnd(endT, dur);
      && AllOk(parts, |r|) && Compact(parts)
      && ClipOf(r, m, key, end, cs, plan, f, Flatten(parts, r))
      && f == FrameOf(m, plan, I64(key.time), end, duration, title)
      && key == KeyCue(m.cues, startT) && key.time < end
      && CollectClusters(r, key.clusterOff, m.segmentEnd, end) == Ok(cs)
  {
    hide OpenMeta, MetaOk, PlanClip, PlanOk, Assemble, Flatten, AllOk, Compact, KeyCue, I64, FrameOf, BodiesOk,
         AttachmentsOk, ClipBytes, At, CollectClusters;
    var end := CutEnd(endT, dur);
    MetaAttachments(r, m);
    key, plan := PlanClip(r, m, startT, end).value.0, PlanClip(r, m, startT, end).value.1;
    cs := PlanClipOk(r, m, startT, end, key, plan);
    PlanBodies(r, m, key, end, cs, plan);
    f := FrameOf(m, plan, I64(key.time), end, duration, title);
    AssembledBytes(r, m, plan, I64(key.time), end, duration, title);
    ClipFits(r, m, plan, I64(key.time), end, duration, title);
    KeyInside(r, m, key, end, cs, plan);
  }

  lemma ClipFits(r: Bytes, m: Meta, plan: seq<Planned>, origin: int, endT: nat, duration: Bytes, title: Bytes)
    requires BodiesOk(r, plan) && AttachmentsOk(r, m)
    requires |ClipBytes(r, m, FrameOf(m, plan, origin, endT, duration, title), plan, origin)| < TWO56
    ensures FrameOf(m, plan, origin, endT, duration, title).segmentLen < TWO56 - 1
  {
    hide FrameOf, BodiesOk, AttachmentsOk, ClipBytes, At, Image, AttachmentBytes;
    FramePlaces(r, m, plan, origin, endT, duration, title);
  }

  lemma KeyInside(r: Bytes, m: Meta, key: CuePoint, endT: nat, cs: seq<Cluster>, plan: seq<Planned>)
    requires PlanOk(r, m, key, endT, cs, plan)
    ensures key.time < endT
  {
    hide Chain, PlannedOk;
  }

  // ---------------------------------------------------------------- cues

  /** The source's cue points the clip should have: those on its clusters with a time in [key, endT). */
  predicate InClip(cp: CuePoint, cs: seq<Cluster>, key: nat, endT: nat) {
    key <= cp.time < endT && exists i :: 0 <= i < |cs| && cs[i].off == cp.clusterOff
  }

  function CuesInClip(cues: seq<CuePoint>, cs: seq<Cluster>, key: nat, endT: nat): seq<CuePoint> {
    if cues == [] then []
    else (if InClip(cues[0], cs, key, endT) then [cues[0]] else []) + CuesInClip(cues[1..], cs, key, endT)
  }

  /** c is cp moved to the clip: origin earlier, and at the new first byte of the same cluster. */
  predicate MovedCue(c: CuePoint, cp: CuePoint, cs: seq<Cluster>, key: nat, start: nat, offsets: seq<int>) {
    c.time == cp.time - key &&
    exists i :: 0 <= i < |cs| && i < |offsets| && cs[i].off == cp.clusterOff && c.clusterOff == start + offsets[i]
  }

  predicate MovedCues(out: seq<CuePoint>, cues: seq<CuePoint>, cs: seq<Cluster>, key: nat, start: nat,
          offsets: seq<int>) {
    |out| == |cues| && forall j :: 0 <= j < |cues| ==> MovedCue(out[j], cues[j], cs, key, start, offsets)
  }

  lemma MovedCuesCons(c: CuePoint, out: seq<CuePoint>, cp: CuePoint, cues: seq<CuePoint>, cs: seq<Cluster>, key: nat,
          start: nat, offsets: seq<int>)
    requires MovedCue(c, cp, cs, key, start, offsets) && MovedCues(out, cues, cs, key, start, offsets)
    ensures MovedCues([c] + out, [cp] + cues, cs, key, start, offsets)
  {
    hide MovedCue;
  }

  lemma NoneMoved(cs: seq<Cluster>, key: nat, start: nat, offsets: seq<int>)
    ensures MovedCues([], [], cs, key, start, offsets)
  {
  }

  predicate Placing(plan: seq<Planned>, cs: seq<Cluster>, offsets: seq<int>) {
    |plan| == |cs| < |offsets| && (forall i :: 0 <= i < |cs| ==> plan[i].c == cs[i])
      && forall i :: 0 <= i < |cs| ==> offsets[i] >= 0
  }

  lemma OneCue(cp: CuePoint, plan: seq<Planned>, cs: seq<Cluster>, key: nat, endT: nat, start: nat, offsets: seq<int>)
    requires key < endT < TWO63 && Placing(plan, cs, offsets)
    ensures InClip(cp, cs, key, endT) <==> CueSurvives(cp, plan, I64(key), endT)
    ensures InClip(cp, cs, key, endT) ==>
      var i := IndexOf(plan, cp.clusterOff).value;
      MovedCue(CuePoint(Shifted(cp.time, I64(key)), Nat(start + OffsetOf(offsets, i))), cp, cs, key, start, offsets)
  {
    hide IndexOf;
    Survives(cp, plan, key, endT);
    if i :| 0 <= i < |cs| && cs[i].off == cp.clusterOff { assert plan[i].c.off == cp.clusterOff; }
    if i :| 0 <= i < |plan| && plan[i].c.off == cp.clusterOff { assert cs[i].off == cp.clusterOff; }
    if CueSurvives(cp, plan, I64(key), endT) {
      var i := IndexOf(plan, cp.clusterOff).value;
      assert cs[i].off == cp.clusterOff;
    }
  }

  lemma CuesOutHead(q: NewCue, rest: seq<NewCue>, start: nat, offsets: seq<int>)
    ensures CuesOut([q] + rest, start, offsets)
         == [CuePoint(q.time, Nat(start + OffsetOf(offsets, q.cluster)))] + CuesOut(rest, start, offsets)
  {
    assert ([q] + rest)[1..] == rest;
  }

  /** The clip's cues are exactly those of the source, in order, moved. */
  lemma {:induction false} CuesExactly(cues: seq<CuePoint>, plan: seq<Planned>, cs: seq<Cluster>, key: nat, endT: nat,
          start: nat, offsets: seq<int>)
    requires key < endT < TWO63 && Placing(plan, cs, offsets)
    ensures MovedCues(CuesOut(NewCues(cues, plan, I64(key), endT), start, offsets), CuesInClip(cues, cs, key, endT), cs,
      key, start, offsets)
    ensures NewCues(cues, plan, I64(key), endT) == [] <==> CuesInClip(cues, cs, key, endT) == []
  {
    hide IndexOf, OffsetOf, CuesOut, MovedCues, MovedCue, InClip, CueSurvives, Placing, Shifted, I64;
    if cues == [] {
      NoneMoved(cs, key, start, offsets);
      NoneOut(start, offsets, 0);
      assert CuesOut([], start, offsets) == [] by { EmptyOut(start, offsets); }
    } else {
      CuesExactly(cues[1..], plan, cs, key, endT, start, offsets);
      OneCue(cues[0], plan, cs, key, endT, start, offsets);
      var rest, kept := NewCues(cues[1..], plan, I64(key), endT), CuesInClip(cues[1..], cs, key, endT);
      if InClip(cues[0], cs, key, endT) {
        SurvivorHasIndex(cues[0], plan, I64(key), endT);
        var q := NewCue(Shifted(cues[0].time, I64(key)), IndexOf(plan, cues[0].clusterOff).value);
        CuesOutHead(q, rest, start, offsets);
        MovedCuesCons(CuePoint(q.time, Nat(start + OffsetOf(offsets, q.cluster))), CuesOut(rest, start, offsets),
          cues[0], kept, cs, key, start, offsets);
      } else {
        assert [] + rest == rest && [] + kept == kept;
      }
    }
  }

  lemma SurvivorHasIndex(cp: CuePoint, plan: seq<Planned>, origin: int, endT: nat)
    requires CueSurvives(cp, plan, origin, endT)
    ensures IndexOf(plan, cp.clusterOff).Some?
  {
  }

  lemma EmptyOut(start: nat, offsets: seq<int>)
    ensures CuesOut([], start, offsets) == []
  {
  }

  lemma {:induction false} SomeCueInClip(cues: seq<CuePoint>, cs: seq<Cluster>, key: nat, endT: nat)
    ensures CuesInClip(cues, cs, key, endT) != [] <==> exists cp :: cp in cues && InClip(cp, cs, key, endT)
  {
    hide InClip;
    if cues != [] { SomeCueInClip(cues[1..], cs, key, endT); }
  }

  /** A cue is left whenever the key cue points at a cluster, as it does in a well-made file. */
  lemma KeyCueSurvives(r: Bytes, m: Meta, startT: nat, endT: nat, cs: seq<Cluster>)
    requires MetaOk(r, m) && m.cues != [] && KeyCue(m.cues, startT).time < endT
    requires CollectClusters(r, KeyCue(m.cues, startT).clusterOff, m.segmentEnd, endT) == Ok(cs)
    requires var off := KeyCue(m.cues, startT).clusterOff;
      off < m.segmentEnd && ReadCluster(r, off).Ok? && ReadCluster(r, off).value.Some?
    ensures CuesInClip(m.cues, cs, KeyCue(m.cues, startT).time, endT) != []
  {
    hide OpenMeta, MetaOk, KeyCue, CollectClusters, ReadCluster, CuesInClip, Sorted;
    MetaCues(r, m);
    var key := KeyCue(m.cues, startT);
    KeyCueIsLast(m.cues, startT);
    Collected(r, key.clusterOff, m.segmentEnd, endT, cs);
    ClusterEnd(r, key.clusterOff);
    assert cs[0].off == key.clusterOff;
    assert InClip(key, cs, key.time, endT);
    SomeCueInClip(m.cues, cs, key.time, endT);
  }

  // ---------------------------------------------------------------- the theorem

  /** Cluster c' of the clip holds what the i-th collected cluster of the source keeps: the same blocks in
      the same order, `key` ticks earlier; or the same failure when the source's cannot be read. */
  predicate HoldsKept(r: Bytes, m: Meta, key: CuePoint, endT: nat, cs: seq<Cluster>, i: nat, clip: Bytes, c': Cluster)
    requires i < |cs|
  {
    match SourceKept(r, m, key, endT, cs, i)
    case Ok(bs) => ReadBlocks(clip, c').Ok? && SameBlocks(clip, ReadBlocks(clip, c').value, r, bs, key.time)
    case Err(x) => ReadBlocks(clip, c') == Err(x)
  }

  /** The clip walked cluster by cluster: each stands at its offset in the frame, behind the one before, and
      the last one ends the file. */
  predicate ClipHolds(r: Bytes, m: Meta, key: CuePoint, endT: nat, cs: seq<Cluster>, f: Frame, clip: Bytes,
          seen: seq<Cluster>) {
    && |seen| == |cs| > 0 && |f.offsets| == |cs| + 1
    && (forall i :: 0 <= i < |cs| ==>
          && seen[i].timestamp == (if i == 0 then 0 else cs[i].timestamp - key.time)
          && HoldsKept(r, m, key, endT, cs, i, clip, seen[i])
          && seen[i].off == SegmentStart(m) + f.offsets[i] && seen[i].end == SegmentStart(m) + f.offsets[i + 1])
    && seen[|seen| - 1].end == |clip|
  }

  lemma OneHolds(r: Bytes, m: Meta, key: CuePoint, endT: nat, cs: seq<Cluster>, plan: seq<Planned>, f: Frame,
          clip: Bytes, i: nat)
    requires ClipOf(r, m, key, endT, cs, plan, f, clip) && i < |cs|
    ensures |plan| == |cs| && |f.offsets| == |plan| + 1
    ensures var c := SeenAt(r, m, plan, f, I64(key.time), i);
      && HoldsKept(r, m, key, endT, cs, i, clip, c)
      && c.timestamp == (if i == 0 then 0 else cs[i].timestamp - key.time)
      && c.off == SegmentStart(m) + f.offsets[i] && c.end == SegmentStart(m) + f.offsets[i + 1]
      && plan[i].c == cs[i]
  {
    hide ClipOf, SeenAt, ReadCluster, At, BodyBytes, SourceKept, SameBlocks, ReadBlocks;
    BlocksOfClip(r, m, key, endT, cs, plan, f, clip, i);
    ClusterReads(r, m, key, endT, cs, plan, f, clip, i);
    PlannedCluster(r, m, key, endT, cs, plan, f, clip, i);
  }

  lemma PlannedCluster(r: Bytes, m: Meta, key: CuePoint, endT: nat, cs: seq<Cluster>, plan: seq<Planned>, f: Frame,
          clip: Bytes, i: nat)
    requires ClipOf(r, m, key, endT, cs, plan, f, clip) && i < |cs|
    ensures |plan| == |cs| && plan[i].c == cs[i] && plan[i].timestamp == (if i == 0 then key.time else cs[i].timestamp)
  {
    hide Chain, AttachmentsOk, FrameOf, ClipBytes, BodyOk, KeptOf;
    assert PlannedOk(r, m, key, endT, cs, plan[i], i);
  }

  lemma Placings(r: Bytes, m: Meta, key: CuePoint, endT: nat, cs: seq<Cluster>, plan: seq<Planned>, f: Frame,
          clip: Bytes)
    requires ClipOf(r, m, key, endT, cs, plan, f, clip)
    ensures Placing(plan, cs, f.offsets)
  {
    hide ClipOf, BodyBytes, NewHeader, At, Image;
    ClipSizes(r, m, key, endT, cs, plan, f, clip);
    forall i | 0 <= i < |cs|
      ensures plan[i].c == cs[i] && f.offsets[i] >= 0
    {
      PlannedCluster(r, m, key, endT, cs, plan, f, clip, i);
      ClipPlace(r, m, key, endT, cs, plan, f, clip, i);
    }
  }

  /** Walking the clip gives, cluster by cluster and each at its offset, the kept blocks of the source: same
      order, same tracks and bytes, times moved by the keyframe's. */
  lemma ClipWalked(r: Bytes, m: Meta, key: CuePoint, endT: nat, cs: seq<Cluster>, plan: seq<Planned>, f: Frame,
          clip: Bytes)
    requires ClipOf(r, m, key, endT, cs, plan, f, clip)
    ensures |f.offsets| > 0 && SegmentStart(m) + f.offsets[0] >= 0
    ensures CollectClusters(clip, SegmentStart(m) + f.offsets[0], |clip|, TWO64).Ok?
    ensures ClipHolds(r, m, key, endT, cs, f, clip,
      CollectClusters(clip, SegmentStart(m) + f.offsets[0], |clip|, TWO64).value)
  {
    hide ClipOf, SeenAt, HoldsKept, CollectClusters, NewHeader, BodyBytes, Image, At;
    WalkOfClip(r, m, key, endT, cs, plan, f, clip);
    var all := AllSeen(r, m, plan, f, I64(key.time));
    forall i | 0 <= i < |cs|
      ensures all[i].timestamp == (if i == 0 then 0 else cs[i].timestamp - key.time)
        && HoldsKept(r, m, key, endT, cs, i, clip, all[i])
      ensures all[i].off == SegmentStart(m) + f.offsets[i] && all[i].end == SegmentStart(m) + f.offsets[i + 1]
    {
      OneHolds(r, m, key, endT, cs, plan, f, clip, i);
    }
    ClipPlace(r, m, key, endT, cs, plan, f, clip, |cs| - 1);
  }

  // ---------------------------------------------------------------- what reaches past the end

  /** None of the blocks, when they can be read, is at or after t. */
  predicate AllBefore(bs: Result<seq<Block>>, t: int) {
    bs.Ok? ==> forall b :: b in bs.value ==> b.time < t
  }

  lemma SameEnds(clip: Bytes, bs': seq<Block>, r: Bytes, bs: seq<Block>, key: int, endT: int)
    requires SameBlocks(clip, bs', r, bs, key)
    ensures (forall b :: b in bs' ==> b.time < endT - key) <==> (forall b :: b in bs ==> b.time < endT)
  {
    forall j | 0 <= j < |bs|
      ensures bs'[j].time == bs[j].time - key
    {
      assert SameBlock(clip, bs'[j], r, bs[j], key);
    }
  }

  lemma ClusterEnds(r: Bytes, m: Meta, key: CuePoint, endT: nat, cs: seq<Cluster>, i: nat, clip: Bytes, c': Cluster)
    requires i < |cs| && HoldsKept(r, m, key, endT, cs, i, clip, c')
    ensures AllBefore(ReadBlocks(clip, c'), endT - key.time) <==> AllBefore(SourceKept(r, m, key, endT, cs, i), endT)
  {
    hide ReadBlocks, SourceKept, SameBlocks;
    if SourceKept(r, m, key, endT, cs, i).Ok? {
      SameEnds(clip, ReadBlocks(clip, c').value, r, SourceKept(r, m, key, endT, cs, i).value, key.time, endT);
    }
  }

  /** The last cluster is cut at the end. */
  lemma LastEnds(r: Bytes, m: Meta, key: CuePoint, endT: nat, cs: seq<Cluster>)
    requires cs != []
    ensures AllBefore(SourceKept(r, m, key, endT, cs, |cs| - 1), endT)
  {
    hide ReadBlocks, KeyIndex, Pick;
    var i := |cs| - 1;
    if ReadBlocks(r, cs[i]).Ok? {
      var bs := ReadBlocks(r, cs[i]).value;
      var k := KeyIndex(bs, m.videoTrack, key.time, 0);
      var marks := Keeping(bs, m.videoTrack, key.time, endT, i == 0, true, k);
      forall b | b in Pick(bs, marks)
        ensures b.time < endT
      {
        PickMember(bs, marks, b);
      }
    }
  }

  /** Nothing in the clip is at or after its end exactly when nothing kept of the clusters in front of the
      last one is: those are not cut at the end. */
  lemma NothingPastEnd(r: Bytes, m: Meta, key: CuePoint, endT: nat, cs: seq<Cluster>, f: Frame, clip: Bytes,
          seen: seq<Cluster>)
    requires ClipHolds(r, m, key, endT, cs, f, clip, seen)
    ensures (forall i :: 0 <= i < |cs| ==> AllBefore(ReadBlocks(clip, seen[i]), endT - key.time))
       <==> (forall i :: 0 <= i < |cs| - 1 ==> AllBefore(SourceKept(r, m, key, endT, cs, i), endT))
  {
    hide HoldsKept, AllBefore, SourceKept, ReadBlocks;
    LastEnds(r, m, key, endT, cs);
    forall i | 0 <= i < |cs|
      ensures AllBefore(ReadBlocks(clip, seen[i]), endT - key.time) <==>
        AllBefore(SourceKept(r, m, key, endT, cs, i), endT)
    {
      ClusterEnds(r, m, key, endT, cs, i, clip, seen[i]);
    }
  }

  /** Nor does anything in it come before its start: no block of the first cluster has a negative time, and when the
      keyframe is in the source's first cluster its block is the first one, at time 0. */
  lemma StartsWithKey(r: Bytes, m: Meta, key: CuePoint, endT: nat, cs: seq<Cluster>, f: Frame, clip: Bytes,
          seen: seq<Cluster>)
    requires ClipHolds(r, m, key, endT, cs, f, clip, seen) && key.time < endT
    requires ReadBlocks(r, cs[0]).Ok?
    ensures ReadBlocks(clip, seen[0]).Ok?
    ensures var blocks := ReadBlocks(clip, seen[0]).value;
      && (forall b :: b in blocks ==> b.time >= 0)
      && ((exists b :: b in ReadBlocks(r, cs[0]).value && IsKey(b, m.videoTrack, key.time)) ==>
            blocks != [] && IsKey(blocks[0], m.videoTrack, 0))
  {
    hide ReadBlocks, KeptBlocks, KeyIndex, StartsAt, SameBlock;
    var bs := ReadBlocks(r, cs[0]).value;
    var k := KeyIndex(bs, m.videoTrack, key.time, 0);
    IndexStarts(bs, m.videoTrack, key.time);
    KeyComesFirst(bs, m.videoTrack, key.time, endT, 0 == |cs| - 1, k);
    var keep := KeptBlocks(bs, m.videoTrack, key.time, endT, true, 0 == |cs| - 1, k);
    var blocks := ReadBlocks(clip, seen[0]).value;
    forall j | 0 <= j < |blocks|
      ensures blocks[j].time == keep[j].time - key.time && blocks[j].track == keep[j].track
    {
      assert SameBlock(clip, blocks[j], r, keep[j], key.time);
      SameTime(clip, blocks[j], r, keep[j], key.time);
    }
  }

  lemma SameTime(clip: Bytes, b': Block, r: Bytes, b: Block, origin: int)
    requires SameBlock(clip, b', r, b, origin)
    ensures b'.time == b.time - origin && b'.track == b.track
  {
  }

  // ---------------------------------------------------------------- when a clip can be made

  /** What the collected clusters must be like: the first and the last can be read, the blocks kept of the first one
      are within 16 bits of the keyframe if they have to be rewritten, and no later cluster starts before it. */
  predicate Cuttable(r: Bytes, m: Meta, key: CuePoint, endT: nat, cs: seq<Cluster>) {
    && cs != [] && ReadBlocks(r, cs[0]).Ok? && ReadBlocks(r, cs[|cs| - 1]).Ok?
    && (cs[0].timestamp != key.time ==> InRange(SourceKept(r, m, key, endT, cs, 0).value, key.time))
    && forall i :: 0 < i < |cs| ==> I64(cs[i].timestamp) >= key.time
  }

  /** The first cluster's body can be made. */
  lemma FirstExactly(r: Bytes, m: Meta, key: CuePoint, endT: nat, cs: seq<Cluster>)
    requires cs != [] && ReadBlocks(r, cs[0]).Ok? && key.time < endT < TWO63
    ensures FirstBody(cs[0], FirstKept(ReadBlocks(r, cs[0]).value, m.videoTrack, key, endT, |cs| == 1), key).Ok? <==>
      (cs[0].timestamp != key.time ==> InRange(SourceKept(r, m, key, endT, cs, 0).value, key.time))
  {
    hide ReadBlocks, FirstKept, SourceKept, RebasedParts, BlockParts, InRange, I64;
    NotWrapped(key.time, key.time);
    var keep := FirstKept(ReadBlocks(r, cs[0]).value, m.videoTrack, key, endT, |cs| == 1);
    FirstKeptIs(r, m, key, endT, cs);
    RebasedExactly(keep, key.time);
  }

  lemma FirstKeptIs(r: Bytes, m: Meta, key: CuePoint, endT: nat, cs: seq<Cluster>)
    requires cs != [] && ReadBlocks(r, cs[0]).Ok? && key.time < endT < TWO63
    ensures SourceKept(r, m, key, endT, cs, 0) ==
      Ok(FirstKept(ReadBlocks(r, cs[0]).value, m.videoTrack, key, endT, |cs| == 1))
  {
    hide ReadBlocks, FirstKept, KeptBlocks, KeyIndex, StartsAt;
    var bs := ReadBlocks(r, cs[0]).value;
    IndexStarts(bs, m.videoTrack, key.time);
    var k := KeyIndex(bs, m.videoTrack, key.time, 0);
    if |cs| == 1 { OnlyOne(bs, m.videoTrack, key, endT, k); } else { FirstOfMore(bs, m.videoTrack, key, endT, k); }
  }

  lemma PlansExactly(r: Bytes, m: Meta, key: CuePoint, endT: nat, cs: seq<Cluster>)
    requires cs != [] && key.time < endT < TWO63
    ensures (PlanClusters(r, m.videoTrack, key, endT, cs).Ok?
             && NoneBefore(PlanClusters(r, m.videoTrack, key, endT, cs).value, I64(key.time))) <==>
      Cuttable(r, m, key, endT, cs)
  {
    hide ReadBlocks, FirstKept, FirstBody, SourceKept, KeepUntil, BlockParts, InRange, I64, Middle;
    var n := |cs|;
    var plan := PlanClusters(r, m.videoTrack, key, endT, cs);
    NotWrapped(key.time, key.time);
    if ReadBlocks(r, cs[0]).Ok? { FirstExactly(r, m, key, endT, cs); }
    if plan.Ok? {
      PlanShape(r, m.videoTrack, key, endT, cs);
      forall i | 0 <= i < n
        ensures plan.value[i].timestamp == if i == 0 then key.time else cs[i].timestamp
      {
      }
    }
  }

  /** BuildClip succeeds exactly when the start is before the end of the file and the keyframe before the end of the
      range, and the clusters from the key cue on are such that a clip can be made of them. */
  lemma BuildExactly(r: Bytes, m: Meta, startT: nat, endT: nat, dur: Option<nat>, duration: Bytes, title: Bytes)
    requires m.cues != [] && CutEnd(endT, dur) < TWO63
    ensures var key := KeyCue(m.cues, startT); var end := CutEnd(endT, dur);
      BuildClip(r, m, startT, endT, dur, duration, title).Ok? <==>
        && (dur.Some? ==> startT < dur.value) && key.time < end
        && exists cs :: Chain(r, key.clusterOff, m.segmentEnd, end, true, cs) && Cuttable(r, m, key, end, cs)
  {
    hide KeyCue, Collect, Chain, PlanClusters, NoneBefore, Cuttable, I64, Assemble, CutEnd;
    var key, end := KeyCue(m.cues, startT), CutEnd(endT, dur);
    var found := CollectClusters(r, key.clusterOff, m.segmentEnd, end);
    if key.time < end {
      if found.Ok? {
        CollectExactly(r, key.clusterOff, m.segmentEnd, end, found.value);
        PlansExactly(r, m, key, end, found.value);
      }
      if cs :| Chain(r, key.clusterOff, m.segmentEnd, end, true, cs) && Cuttable(r, m, key, end, cs) {
        CuttableSome(r, m, key, end, cs);
        CollectExactly(r, key.clusterOff, m.segmentEnd, end, cs);
      }
    }
  }

  lemma CuttableSome(r: Bytes, m: Meta, key: CuePoint, endT: nat, cs: seq<Cluster>)
    requires Cuttable(r, m, key, endT, cs)
    ensures cs != []
  {
  }

  // ---------------------------------------------------------------- the metadata of the clip

  /** o is what opening the clip should give: the source's metadata, for a file that is this clip. */
  predicate Reopened(r: Bytes, m: Meta, key: CuePoint, endT: nat, cs: seq<Cluster>, f: Frame, clip: Bytes,
                     duration: Bytes, title: Bytes, o: Meta)
    requires f.offsets != []
  {
    && o.size == |clip| == o.segmentEnd && o.segmentData == SegmentStart(m) && o.ebmlHeader == m.ebmlHeader
    && o.timestampScale == m.timestampScale && o.duration == duration && o.videoTrack == m.videoTrack
    && o.infoChildren == Pick(m.infoChildren, Marked(m.infoChildren, StaysInInfo))
                         + [Encoded(ID_DURATION, duration), Encoded(ID_TITLE, title)]
    && o.tracksChildren == Pick(m.tracksChildren, Marked(m.tracksChildren, StaysInTracks))
    && o.firstCluster == SegmentStart(m) + f.offsets[0]
    && MovedCues(o.cues, CuesInClip(m.cues, cs, key.time, endT), cs, key.time, SegmentStart(m), f.offsets)
    && SameAttachments(r, m, clip, o)
  }

  predicate SameAttachments(r: Bytes, m: Meta, clip: Bytes, o: Meta) {
    match (m.attachments, o.attachments)
    case (Some(a), Some(b)) => a.0 + a.1 <= |r| && b.1 == a.1 && At(clip, b.0, r[a.0..a.0 + a.1])
    case (None, None) => true
    case _ => false
  }

  lemma AttachmentsCopied(r: Bytes, m: Meta, clip: Bytes, o: Meta, at: nat)
    requires AttachmentsOk(r, m) && At(clip, at, AttachmentBytes(r, m))
    requires o.attachments == if m.attachments.Some? then Some((at, m.attachments.value.1)) else None
    ensures SameAttachments(r, m, clip, o)
  {
  }

  /** Opening a clip: it succeeds exactly when some cue is left and the rebuilt elements can be read, and
      then gives the same timestamp scale, tracks, video track and attachments, with exactly the source's
      cues of the clip, each moved to its cluster's new place. */
  lemma ClipOpened(r: Bytes, m: Meta, key: CuePoint, endT: nat, cs: seq<Cluster>, plan: seq<Planned>, f: Frame,
          clip: Bytes, duration: Bytes, title: Bytes)
    requires MetaOk(r, m) && ClipOf(r, m, key, endT, cs, plan, f, clip) && key.time < endT < TWO63
    requires f == FrameOf(m, plan, I64(key.time), endT, duration, title)
    ensures f.offsets != []
    ensures OpenMeta(clip).Ok? <==>
      WithinBound(HeadOf(m, plan, f, key, endT, duration, title)) && CuesInClip(m.cues, cs, key.time, endT) != []
    ensures OpenMeta(clip).Ok? ==> Reopened(r, m, key, endT, cs, f, clip, duration, title, OpenMeta(clip).value)
    ensures OpenMeta(clip).Err? ==> OpenMeta(clip) == Err(Unsupported)
  {
    hide ClipOf, OpenMeta, MetaOk, FrameOf, HeadOf, NewCues, I64, WithinBound, CuesInClip, CuesOut, MovedCues, Placed,
         AttachmentBytes, AttachmentsOk, SameAttachments, At, EncodeElement, KeptTracks, NewInfo, Placing;
    MetaAttachments(r, m);
    InfoKept(m, duration, title);
    TracksKept(m.tracksChildren);
    OpenClip(r, m, key, endT, cs, plan, f, clip, duration, title);
    Placings(r, m, key, endT, cs, plan, f, clip);
    CuesExactly(m.cues, plan, cs, key.time, endT, SegmentStart(m), f.offsets);
    ClipPlaced(r, m, key, endT, cs, plan, f, clip, duration, title);
    HeadPlaces(m, plan, f, key, endT, duration, title, AttachmentBytes(r, m), clip);
    var h := HeadOf(m, plan, f, key, endT, duration, title);
    AttachmentsCopied(r, m, clip, ClipMeta(m, h, plan, f, key, endT, duration, title, |clip|), h.attAt);
  }

  /** Every position the clip's SeekHead gives is that of the element it names. */
  lemma SeekHeadTrue(r: Bytes, m: Meta, key: CuePoint, endT: nat, cs: seq<Cluster>, plan: seq<Planned>, f: Frame,
          clip: Bytes, duration: Bytes, title: Bytes, want: nat, pos: nat)
    requires MetaOk(r, m) && ClipOf(r, m, key, endT, cs, plan, f, clip)
    requires f == FrameOf(m, plan, I64(key.time), endT, duration, title) && f.offsets != []
    requires SeekPosition(HeadOf(m, plan, f, key, endT, duration, title).seekHead, want) == Some(pos)
    ensures want == ID_INFO || want == ID_TRACKS || want == ID_CUES || want == ID_ATTACHMENTS
    ensures ReadHeaderAt(clip, SegmentStart(m) + pos).Ok? && ReadHeaderAt(clip, SegmentStart(m) + pos).value.id == want
  {
    hide ClipOf, OpenMeta, MetaOk, FrameOf, I64, At, EncodeElement, SeekElements, Flat, AttachmentBytes, ReadHeaderAt,
         NewInfo, KeptTracks, CueElements, NewCues, SeekPosition, AttachmentsAt, EncodeID, EncodeSize, U64,
         ClusterHeaderAt;
    ClipPlaced(r, m, key, endT, cs, plan, f, clip, duration, title);
    PlacesInside(m, f, AttachmentBytes(r, m), clip);
    ClipHead(r, m, key, endT, cs, plan, f, clip, duration, title);
    HeadShape(m, plan, f, key, endT, duration, title);
    SeekFinds(f.infoPos, f.tracksPos, f.cuesPos, f.attPos, want);
    var h := HeadOf(m, plan, f, key, endT, duration, title);
    StandHeaders(clip, h);
  }

  lemma StandHeaders(clip: Bytes, h: Head)
    requires HeadStands(clip, h)
    ensures ReadHeaderAt(clip, h.infoAt).Ok? && ReadHeaderAt(clip, h.infoAt).value.id == ID_INFO
    ensures ReadHeaderAt(clip, h.tracksAt).Ok? && ReadHeaderAt(clip, h.tracksAt).value.id == ID_TRACKS
    ensures ReadHeaderAt(clip, h.cuesAt).Ok? && ReadHeaderAt(clip, h.cuesAt).value.id == ID_CUES
    ensures h.att.Some? ==> ReadHeaderAt(clip, h.attAt).Ok? && ReadHeaderAt(clip, h.attAt).value.id == ID_ATTACHMENTS
  {
    hide At, EncodeElement, ReadHeaderAt, ClusterHeaderAt;
    MkvCluster.EncodedAt(clip, h.infoAt, ID_INFO, h.info);
    MkvCluster.EncodedAt(clip, h.tracksAt, ID_TRACKS, h.tracks);
    MkvCluster.EncodedAt(clip, h.cuesAt, ID_CUES, h.cues);
  }

  /** From end to end: what BuildClip returns passes Finalize, holds the kept blocks, and can be opened
      again exactly when some cue is left and the rebuilt elements are within the reader's bound. */
  lemma ClipTheorem(r: Bytes, m: Meta, startT: nat, endT: nat, dur: Option<nat>, duration: Bytes, title: Bytes)
    returns (key: CuePoint, cs: seq<Cluster>, plan: seq<Planned>, f: Frame)
    requires MetaOk(r, m) && CutEnd(endT, dur) < TWO63
    requires m.cues != [] && BuildClip(r, m, startT, endT, dur, duration, title).Ok?
    requires |Flatten(BuildClip(r, m, startT, endT, dur, duration, title).value, r)| < TWO56
    ensures f.offsets != [] && SegmentStart(m) + f.offsets[0] >= 0
    ensures var parts := BuildClip(r, m, startT, endT, dur, duration, title).value; var end := CutEnd(endT, dur);
      var clip := Flatten(parts, r); var walk := CollectClusters(clip, SegmentStart(m) + f.offsets[0], |clip|, TWO64);
      && AllOk(parts, |r|) && Compact(parts)
      && key == KeyCue(m.cues, startT) && key.time < end
      && CollectClusters(r, key.clusterOff, m.segmentEnd, end) == Ok(cs)
      && ClipOf(r, m, key, end, cs, plan, f, clip) && f == FrameOf(m, plan, I64(key.time), end, duration, title)
      && walk.Ok? && ClipHolds(r, m, key, end, cs, f, clip, walk.value)
      && (OpenMeta(clip).Ok? <==>
            WithinBound(HeadOf(m, plan, f, key, end, duration, title)) && CuesInClip(m.cues, cs, key.time, end) != [])
      && (OpenMeta(clip).Ok? ==> Reopened(r, m, key, end, cs, f, clip, duration, title, OpenMeta(clip).value))
      && (OpenMeta(clip).Err? ==> OpenMeta(clip) == Err(Unsupported))
  {
    hide OpenMeta, BuildClip, Flatten, AllOk, Compact, KeyCue, CollectClusters, ClipOf, FrameOf, HeadOf, ClipHolds,
         Reopened, CuesInClip, WithinBound, I64;
    key, cs, plan, f := Built(r, m, startT, endT, dur, duration, title);
    var clip := Flatten(BuildClip(r, m, startT, endT, dur, duration, title).value, r);
    ClipWalked(r, m, key, CutEnd(endT, dur), cs, plan, f, clip);
    ClipOpened(r, m, key, CutEnd(endT, dur), cs, plan, f, clip, duration, title);
  }
}
