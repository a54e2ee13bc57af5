/** The clip's clusters, walked with the package's own reader: cluster by cluster they hold the
    source's kept blocks at shifted times. */
module MkvClip {
  import opened Basics
  import opened Ebml
  import opened Layouts
  import opened Mkv
  import opened MkvBlocks
  import opened MkvBody
  import opened MkvCluster
  import opened MkvPlan
  import opened MkvImage
  import opened MkvKeep

  // ---------------------------------------------------------------- the same block in two files

  /** What follows the relative timestamp: flags, lacing and frames. */
  function Payload(r: Bytes, b: Block): Bytes {
    if b.tsOff + 2 <= b.len && b.off + b.len <= |r| then r[b.off + b.tsOff + 2..b.off + b.len] else []
  }

  /** b' in clip is block b of r, origin ticks earlier: same track, same bytes around the two of the
      relative timestamp. */
  predicate SameBlock(clip: Bytes, b': Block, r: Bytes, b: Block, origin: int) {
    && b'.track == b.track && b'.time == b.time - origin
    && b'.len == b.len && b'.tsOff == b.tsOff && b'.prefix == b.prefix
    && Payload(clip, b') == Payload(r, b)
  }

  predicate SameBlocks(clip: Bytes, bs': seq<Block>, r: Bytes, bs: seq<Block>, origin: int) {
    |bs'| == |bs| && forall j :: 0 <= j < |bs| ==> SameBlock(clip, bs'[j], r, bs[j], origin)
  }

  lemma NewRawTail(clip: Bytes, off: nat, r: Bytes, b: Block, ts: nat, base: Option<int>, ts': nat, origin: int)
    requires Stands(r, b, ts) && Fits([b], ts, base, ts', origin) && At(clip, off, NewRaw(r, b, base))
    ensures SameBlock(clip, b.(off := off, time := b.time - origin), r, b, origin)
  {
    hide ParseBlock, ElementOf, IsElement, I64, Be16, At, InRange, Payload, RawOf, Patch;
    var raw := RawOf(r, b);
    RawAt(r, b, ts);
    TimestampPlace(ElementOf(raw), b.off, ts, b);
    NewBlock(r, b, ts, base, off, ts', origin);
    NewTail(raw, b.tsOff, base, b.time);
    PayloadTail(r, b, raw);
    PayloadTail(clip, b.(off := off, time := b.time - origin), NewRaw(r, b, base));
  }

  lemma RawAt(r: Bytes, b: Block, ts: nat)
    requires Stands(r, b, ts)
    ensures At(r, b.off, RawOf(r, b)) && |RawOf(r, b)| == b.len
  {
    hide ParseBlock, ElementOf, IsElement;
  }

  lemma PayloadTail(file: Bytes, b: Block, raw: Bytes)
    requires At(file, b.off, raw) && |raw| == b.len && b.tsOff + 2 <= b.len
    ensures Payload(file, b) == raw[b.tsOff + 2..]
  {
    SubSlice(file, b.off, b.off + b.len, b.tsOff + 2, b.len);
  }

  lemma NewTail(raw: Bytes, tsOff: nat, base: Option<int>, time: int)
    requires tsOff + 2 <= |raw|
    ensures base.Some? ==> Patch(raw, tsOff, Be16(time - base.value))[tsOff + 2..] == raw[tsOff + 2..]
  {
    if base.Some? { PatchTail(raw, tsOff, tsOff, Be16(time - base.value)); }
  }

  lemma {:induction false} ListedSame(clip: Bytes, off: nat, r: Bytes, keep: seq<Block>, ts: nat, base: Option<int>,
          ts': nat, origin: int)
    requires AllStand(r, keep, ts) && Fits(keep, ts, base, ts', origin)
    requires At(clip, off, Flat(NewElements(r, keep, base)))
    ensures SameBlocks(clip, Moved(keep, off, -origin), r, keep, origin)
    decreases |keep|
  {
    hide Stands, AllStand, I64, At, SameBlock, SameBlocks, Fits, Flat, NewElements;
    if keep == [] {
      NoneSame(clip, r, origin);
    } else {
      var b := keep[0];
      ListedHead(clip, off, r, keep, ts, base, ts', origin);
      ListedSame(clip, off + b.len, r, keep[1..], ts, base, ts', origin);
      SameCons(clip, b.(off := off, time := b.time - origin), Moved(keep[1..], off + b.len, -origin), r, keep, origin);
    }
  }

  lemma ListedHead(clip: Bytes, off: nat, r: Bytes, keep: seq<Block>, ts: nat, base: Option<int>, ts': nat, origin: int)
    requires keep != [] && AllStand(r, keep, ts) && Fits(keep, ts, base, ts', origin)
    requires At(clip, off, Flat(NewElements(r, keep, base)))
    ensures AllStand(r, keep[1..], ts) && Fits(keep[1..], ts, base, ts', origin)
    ensures SameBlock(clip, keep[0].(off := off, time := keep[0].time - origin), r, keep[0], origin)
    ensures At(clip, off + keep[0].len, Flat(NewElements(r, keep[1..], base)))
  {
    hide Stands, NewRaw, I64, At, SameBlock, Fits, Flat, NewElements, ElementOf, IsElement, ParseBlock;
    var b := keep[0];
    assert Stands(r, b, ts);
    FitsRest(keep, ts, base, ts', origin);
    NewBlock(r, b, ts, base, off, ts', origin);
    NewElementsFlat(r, keep, base);
    AtSplit(clip, off, NewRaw(r, b, base), Flat(NewElements(r, keep[1..], base)));
    NewRawTail(clip, off, r, b, ts, base, ts', origin);
  }

  lemma NewElementsFlat(r: Bytes, keep: seq<Block>, base: Option<int>)
    requires keep != []
    ensures Flat(NewElements(r, keep, base)) == NewRaw(r, keep[0], base) + Flat(NewElements(r, keep[1..], base))
  {
    hide NewRaw;
  }

  lemma NoneSame(clip: Bytes, r: Bytes, origin: int)
    ensures SameBlocks(clip, [], r, [], origin)
  {
  }

  lemma FitsRest(keep: seq<Block>, ts: nat, base: Option<int>, ts': nat, origin: int)
    requires keep != [] && Fits(keep, ts, base, ts', origin)
    ensures Fits([keep[0]], ts, base, ts', origin) && Fits(keep[1..], ts, base, ts', origin)
  {
    hide I64;
  }

  lemma SameCons(clip: Bytes, b': Block, bs': seq<Block>, r: Bytes, bs: seq<Block>, origin: int)
    requires bs != [] && SameBlock(clip, b', r, bs[0], origin) && SameBlocks(clip, bs', r, bs[1..], origin)
    ensures SameBlocks(clip, [b'] + bs', r, bs, origin)
  {
    hide SameBlock;
    assert forall j :: 1 <= j < |bs| ==> bs[1..][j - 1] == bs[j];
  }

  /** A block as it is when its cluster's blocks move from `from` to `to` and its time by delta. */
  function MovedTo(b: Block, from: nat, to: nat, delta: int): Block {
    b.(off := if b.off >= from then to + (b.off - from) else b.off, time := b.time + delta)
  }

  function AllMovedTo(bs: seq<Block>, from: nat, to: nat, delta: int): seq<Block> {
    if bs == [] then [] else [MovedTo(bs[0], from, to, delta)] + AllMovedTo(bs[1..], from, to, delta)
  }

  lemma {:induction false} AllMovedToAt(bs: seq<Block>, from: nat, to: nat, delta: int, j: nat)
    requires j < |bs|
    ensures |AllMovedTo(bs, from, to, delta)| == |bs|
      && AllMovedTo(bs, from, to, delta)[j] == MovedTo(bs[j], from, to, delta)
  {
    hide MovedTo;
    if j > 0 {
      AllMovedToAt(bs[1..], from, to, delta, j - 1);
    } else if |bs| > 1 {
      AllMovedToAt(bs[1..], from, to, delta, 0);
    }
  }

  /** Reading a cluster's elements elsewhere and under another timestamp gives the moved blocks, or the same error. */
  lemma {:induction false} BlocksMoved(kids: seq<Element>, base: nat, off: nat, ts: nat, to: nat, ts': nat)
    requires forall i :: 0 <= i < |kids| ==> |kids[i].data| <= |kids[i].raw|
    requires off >= base
    ensures BlocksIn(kids, to + (off - base), ts') ==
      match BlocksIn(kids, off, ts)
      case Ok(bs) => Ok(AllMovedTo(bs, base, to, I64(ts') - I64(ts)))
      case Err(x) => Err(x)
  {
    hide ParseBlock, I64;
    if kids != [] {
      var e := kids[0];
      MovedBlock(e, off, ts, to + (off - base), ts');
      BlockOffset(e, off, ts);
      BlocksMoved(kids[1..], base, off + |e.raw|, ts, to, ts');
      var delta := I64(ts') - I64(ts);
      if ParseBlock(e, off, ts).Ok? && BlocksIn(kids[1..], off + |e.raw|, ts).Ok? {
        var b, rest := ParseBlock(e, off, ts).value, BlocksIn(kids[1..], off + |e.raw|, ts).value;
        if b.Some? {
          assert ([b.value] + rest)[1..] == rest;
          assert AllMovedTo([b.value] + rest, base, to, delta) ==
            [MovedTo(b.value, base, to, delta)] + AllMovedTo(rest, base, to, delta);
        } else {
          assert [] + rest == rest && [] + AllMovedTo(rest, base, to, delta) == AllMovedTo(rest, base, to, delta);
        }
      }
    }
  }

  lemma BlockOffset(e: Element, off: nat, ts: nat)
    requires |e.data| <= |e.raw|
    ensures ParseBlock(e, off, ts).Ok? && ParseBlock(e, off, ts).value.Some? ==>
      ParseBlock(e, off, ts).value.value.off == off
  {
    hide BlockData, DecodeSize, I64, I16, U64, BeVal;
  }

  lemma {:induction false} BlocksInside(kids: seq<Element>, off: nat, ts: nat)
    requires AllElements(kids) && forall i :: 0 <= i < |kids| ==> |kids[i].data| <= |kids[i].raw|
    requires BlocksIn(kids, off, ts).Ok?
    ensures forall b :: b in BlocksIn(kids, off, ts).value ==>
      off <= b.off && b.off + b.len <= off + |Flat(kids)| && b.tsOff + 2 <= b.len
  {
    hide ParseBlock, IsElement;
    if kids != [] {
      var e := kids[0];
      assert IsElement(e);
      BlocksInside(kids[1..], off + |e.raw|, ts);
      if ParseBlock(e, off, ts).value.Some? {
        TimestampPlace(e, off, ts, ParseBlock(e, off, ts).value.value);
      }
    }
  }

  lemma MovedSame(clip: Bytes, to: nat, r: Bytes, from: nat, end: nat, b: Block, delta: int)
    requires from <= b.off && b.off + b.len <= end <= |r| && b.tsOff + 2 <= b.len
    requires At(clip, to, r[from..end])
    ensures SameBlock(clip, MovedTo(b, from, to, delta), r, b, -delta)
  {
    var lo, hi := b.off - from + b.tsOff + 2, b.off - from + b.len;
    SubSlice(r, from, end, lo, hi);
    SubSlice(clip, to, to + (end - from), lo, hi);
  }

  /** A body copied whole reads as the source's blocks moved, failures included. */
  lemma WholeSame(clip: Bytes, c': Cluster, r: Bytes, c: Cluster, origin: int)
    requires c.blocksOff <= c.end <= |r| && c'.blocksOff <= c'.end && c'.end - c'.blocksOff == c.end - c.blocksOff
    requires At(clip, c'.blocksOff, r[c.blocksOff..c.end]) && I64(c'.timestamp) == I64(c.timestamp) - origin
    ensures match ReadBlocks(r, c)
            case Ok(bs) => ReadBlocks(clip, c').Ok? && SameBlocks(clip, ReadBlocks(clip, c').value, r, bs, origin)
            case Err(x) => ReadBlocks(clip, c') == Err(x)
  {
    hide Elements, BlocksIn, Flat, IsElement, SameBlock, I64, AllMovedTo, MovedTo;
    var body := ReadAt(r, c.blocksOff, c.end - c.blocksOff);
    assert ReadAt(clip, c'.blocksOff, c'.end - c'.blocksOff) == body;
    if body.Ok? && Elements(body.value).Ok? {
      var kids := Elements(body.value).value;
      ElementsTile(body.value);
      SanePayloads(kids);
      BlocksMoved(kids, c.blocksOff, c.blocksOff, c.timestamp, c'.blocksOff, c'.timestamp);
      if BlocksIn(kids, c.blocksOff, c.timestamp).Ok? {
        BlocksInside(kids, c.blocksOff, c.timestamp);
        var bs := BlocksIn(kids, c.blocksOff, c.timestamp).value;
        if bs == [] { NoneMoved(c.blocksOff, c'.blocksOff, -origin); }
        forall j | 0 <= j < |bs|
          ensures |AllMovedTo(bs, c.blocksOff, c'.blocksOff, -origin)| == |bs|
          ensures SameBlock(clip, AllMovedTo(bs, c.blocksOff, c'.blocksOff, -origin)[j], r, bs[j], origin)
        {
          AllMovedToAt(bs, c.blocksOff, c'.blocksOff, -origin, j);
          assert bs[j] in bs;
          MovedSame(clip, c'.blocksOff, r, c.blocksOff, c.end, bs[j], -origin);
        }
        if bs != [] { assert 0 <= 0 < |bs|; AllMovedToAt(bs, c.blocksOff, c'.blocksOff, -origin, 0); }
      }
    }
  }

  lemma NoneMoved(from: nat, to: nat, delta: int)
    ensures AllMovedTo([], from, to, delta) == []
  {
  }

  // ---------------------------------------------------------------- each cluster of the clip

  /** A clip of source r as BuildClip lays it out: planned from the key cue on, with its bytes. */
  ghost predicate ClipOf(r: Bytes, m: Meta, key: CuePoint, endT: nat, cs: seq<Cluster>, plan: seq<Planned>, f: Frame,
          clip: Bytes) {
    && PlanOk(r, m, key, endT, cs, plan) && AttachmentsOk(r, m)
    && (exists duration, title :: f == FrameOf(m, plan, I64(key.time), endT, duration, title))
    && clip == ClipBytes(r, m, f, plan, I64(key.time)) && f.segmentLen < TWO56 - 1 && endT < TWO63
  }

  lemma PlanBodies(r: Bytes, m: Meta, key: CuePoint, endT: nat, cs: seq<Cluster>, plan: seq<Planned>)
    requires PlanOk(r, m, key, endT, cs, plan)
    ensures BodiesOk(r, plan)
  {
    hide BodyOk, Chain, KeptOf, AllAppendable, BodyBytes;
    forall i | 0 <= i < |plan|
      ensures AllAppendable(plan[i].body, |r|) && Total(plan[i].body) == |BodyBytes(r, plan[i])|
    {
      assert PlannedOk(r, m, key, endT, cs, plan[i], i);
      BodyOkParts(r, plan[i], KeptOf(r, m.videoTrack, key, endT, cs, i), I64(key.time));
    }
  }

  /** Where the clip's clusters stand. */
  lemma ClipPlace(r: Bytes, m: Meta, key: CuePoint, endT: nat, cs: seq<Cluster>, plan: seq<Planned>, f: Frame,
          clip: Bytes, i: nat)
    requires ClipOf(r, m, key, endT, cs, plan, f, clip) && i < |plan|
    ensures BodiesOk(r, plan) && |f.offsets| == |plan| + 1 && f.offsets[0] > 0
      && |clip| == SegmentStart(m) + f.segmentLen
    ensures f.offsets[|plan|] == f.segmentLen && f.offsets[i] >= f.offsets[0] && f.offsets[i + 1] <= f.segmentLen
    ensures f.offsets[i + 1] == f.offsets[i] + |NewHeader(plan[i], I64(key.time))| + |BodyBytes(r, plan[i])|
    ensures At(clip, SegmentStart(m) + f.offsets[i],
               NewHeader(plan[i], I64(key.time)) + (BodyBytes(r, plan[i]) + Image(r, plan[i + 1..], I64(key.time))))
  {
    hide PlanOk, AttachmentsOk, NewHeader, BodyBytes, At, Image, HeadBytes, AttachmentBytes, BodiesOk, I64, ClipBytes,
         FrameOf, Offsets;
    PlanBodies(r, m, key, endT, cs, plan);
    var duration, title :| f == FrameOf(m, plan, I64(key.time), endT, duration, title);
    FramePlaces(r, m, plan, I64(key.time), endT, duration, title);
    FrameOffsets(m, plan, I64(key.time), endT, duration, title);
    ClusterPlace(clip, SegmentStart(m), r, plan, I64(key.time), f.offsets[0], i);
    AtInside(clip, SegmentStart(m) + f.offsets[i],
             NewHeader(plan[i], I64(key.time)) + (BodyBytes(r, plan[i]) + Image(r, plan[i + 1..], I64(key.time))));
  }

  lemma AtInside(clip: Bytes, off: int, b: Bytes)
    requires At(clip, off, b)
    ensures off + |b| <= |clip|
  {
  }

  lemma FrameOffsets(m: Meta, plan: seq<Planned>, origin: int, endT: nat, duration: Bytes, title: Bytes)
    ensures var f := FrameOf(m, plan, origin, endT, duration, title);
      f.offsets == Offsets(plan, origin, f.offsets[0]) && f.segmentLen == f.offsets[|plan|] && |f.offsets| == |plan| + 1
      && f.offsets[0] > 0
  {
    hide NewInfo, KeptTracks, NewCues, SeekHead, Flat, Offsets, CueElements, MinSizeWidth;
    hide EncodeSize;
  }

  /** The i-th cluster of the clip as its reader sees it. */
  function SeenAt(r: Bytes, m: Meta, plan: seq<Planned>, f: Frame, origin: int, i: nat): Cluster
    requires i < |plan| && i < |f.offsets|
  {
    var o := SegmentStart(m) + f.offsets[i];
    Seen(if o >= 0 then o else 0, plan[i], origin, |BodyBytes(r, plan[i])|)
  }

  lemma BodyStarts(clip: Bytes, o: nat, r: Bytes, p: Planned, k: Kept, origin: int, rest: Bytes)
    requires BodyOk(r, p, k, origin) && BodyBytes(r, p) != []
    requires At(clip, o, BodyBytes(r, p) + rest)
    requires k.Whole? ==> EncodeID(ID_CLUSTER) <= rest && |rest| >= 12
    ensures StartsBlocks(clip, o)
  {
    hide StartsBlocks, AllStand, NewElements, Flat, I64, Shifted, At, ReadHeaderAt, EncodeID, InRange, Flatten;
    BodyOkParts(r, p, k, origin);
    AtSplit(clip, o, BodyBytes(r, p), rest);
    match k {
      case Listed(bs, base) =>
        if bs == [] { NoNewElements(r, base); }
        ListedStart(clip, o, r, bs, p.c.timestamp, base, Shifted(p.timestamp, origin), origin);
      case Whole =>
        var id := EncodeID(ID_CLUSTER);
        assert rest == id + rest[4..] by { assert rest[..4] == id; }
        Assoc(BodyBytes(r, p), id, rest[4..]);
        WholeStart(clip, o, r, p.c.blocksOff, p.c.end - p.c.blocksOff, rest[4..]);
    }
  }

  lemma NoNewElements(r: Bytes, base: Option<int>)
    ensures Flat(NewElements(r, [], base)) == []
  {
  }

  /** The next cluster's header, for every cluster but the last. */
  lemma ImageStart(r: Bytes, plan: seq<Planned>, origin: int)
    requires plan != []
    ensures EncodeID(ID_CLUSTER) <= Image(r, plan, origin) && |Image(r, plan, origin)| >= 12
  {
    hide EncodeID, EncodeSize, BodyBytes, EncodeUint;
    var n := U64(|TimestampElement(plan[0], origin)| + Total(plan[0].body));
    var id, s, ts := EncodeID(ID_CLUSTER), EncodeSize(n, 8), TimestampElement(plan[0], origin);
    var b, rest := BodyBytes(r, plan[0]), Image(r, plan[1..], origin);
    assert Image(r, plan, origin) == (id + s + ts) + b + rest;
    Prefix5(id, s, ts, b, rest);
  }

  lemma Prefix5(a: Bytes, b: Bytes, c: Bytes, d: Bytes, e: Bytes)
    ensures a <= (a + b + c) + d + e && |(a + b + c) + d + e| >= |a| + |b|
  {
  }

  lemma PlannedAt(r: Bytes, m: Meta, key: CuePoint, endT: nat, cs: seq<Cluster>, plan: seq<Planned>, f: Frame,
          clip: Bytes, i: nat)
    requires ClipOf(r, m, key, endT, cs, plan, f, clip) && i < |cs|
    ensures |plan| == |cs| && key.time < endT < TWO63 && PlannedOk(r, m, key, endT, cs, plan[i], i)
  {
    hide PlannedOk, Chain, AttachmentsOk, ClipBytes, FrameOf, I64;
  }

  /** A cluster with a body starts blocks in the clip; one that is copied unread has another one behind it. */
  lemma BodyInClip(r: Bytes, m: Meta, key: CuePoint, endT: nat, cs: seq<Cluster>, plan: seq<Planned>, clip: Bytes,
          i: nat, o: nat)
    requires |plan| == |cs| && i < |cs| && PlannedOk(r, m, key, endT, cs, plan[i], i)
    requires At(clip, o, BodyBytes(r, plan[i]) + Image(r, plan[i + 1..], I64(key.time))) && BodyBytes(r, plan[i]) != []
    ensures StartsBlocks(clip, o)
  {
    hide BodyBytes, At, Image, BodyOk, KeptOf, ReadBlocks, StartsBlocks, I64, EncodeID;
    var k := KeptOf(r, m.videoTrack, key, endT, cs, i);
    if k.Whole? {
      WholeIsMiddle(r, m.videoTrack, key, endT, cs, i);
      ImageStart(r, plan[i + 1..], I64(key.time));
    }
    BodyStarts(clip, o, r, plan[i], k, I64(key.time), Image(r, plan[i + 1..], I64(key.time)));
  }

  /** Every cluster of the clip is read back where the layout put it, its timestamp shifted by exactly
      the keyframe's, without wrap-around. */
  lemma ClusterReads(r: Bytes, m: Meta, key: CuePoint, endT: nat, cs: seq<Cluster>, plan: seq<Planned>, f: Frame,
          clip: Bytes, i: nat)
    requires ClipOf(r, m, key, endT, cs, plan, f, clip) && i < |cs|
    ensures |plan| == |cs| && |f.offsets| == |plan| + 1
    ensures var c' := SeenAt(r, m, plan, f, I64(key.time), i);
      && ReadCluster(clip, c'.off) == Ok(Some(c'))
      && c'.off == SegmentStart(m) + f.offsets[i] && c'.end == SegmentStart(m) + f.offsets[i + 1]
      && c'.timestamp == plan[i].timestamp - key.time
      && At(clip, c'.blocksOff, BodyBytes(r, plan[i])) && c'.end - c'.blocksOff == |BodyBytes(r, plan[i])|
  {
    hide ClipOf, NewHeader, BodyBytes, At, Image, BodyOk, KeptOf, BodiesOk, ReadBlocks, ReadCluster, StartsBlocks,
         TimestampElement;
    var origin := I64(key.time);
    PlannedAt(r, m, key, endT, cs, plan, f, clip, i);
    ClipPlace(r, m, key, endT, cs, plan, f, clip, i);
    FrameFits(r, m, key, endT, cs, plan, f, clip);
    var p := plan[i];
    var o := SegmentStart(m) + f.offsets[i];
    var h, b, rest := NewHeader(p, origin), BodyBytes(r, p), Image(r, plan[i + 1..], origin);
    ShiftExact(p.timestamp, key.time);
    BodyOkParts(r, p, KeptOf(r, m.videoTrack, key, endT, cs, i), origin);
    AtSplit(clip, o, h, b + rest);
    AtSplit(clip, o + |h|, b, rest);
    AtSplit(clip, o, h, b);
    if b != [] { BodyInClip(r, m, key, endT, cs, plan, clip, i, o + |h|); }
    HeaderHasTimestamp(p, origin);
    NewClusterReads(clip, o, p, origin, b);
  }

  lemma FrameFits(r: Bytes, m: Meta, key: CuePoint, endT: nat, cs: seq<Cluster>, plan: seq<Planned>, f: Frame,
          clip: Bytes)
    requires ClipOf(r, m, key, endT, cs, plan, f, clip)
    ensures f.segmentLen < TWO56 - 1
  {
    hide PlanOk, AttachmentsOk, ClipBytes, FrameOf, I64;
  }

  lemma WholeIsMiddle(r: Bytes, video: nat, key: CuePoint, endT: nat, cs: seq<Cluster>, i: nat)
    requires i < |cs| && KeptOf(r, video, key, endT, cs, i).Whole?
    ensures 0 < i < |cs| - 1
  {
  }

  lemma HeaderHasTimestamp(p: Planned, origin: int)
    ensures |NewHeader(p, origin)| == 12 + |TimestampElement(p, origin)|
  {
    hide EncodeID, EncodeSize, EncodeUint;
  }

  /** The main theorem on blocks: in every cluster of the clip the reader finds exactly the kept source
      blocks, in order, with their tracks and bytes and with their times moved by the keyframe's;
      where the source's blocks cannot be read, it fails in the same way. */
  lemma BlocksOfClip(r: Bytes, m: Meta, key: CuePoint, endT: nat, cs: seq<Cluster>, plan: seq<Planned>, f: Frame,
          clip: Bytes, i: nat)
    requires ClipOf(r, m, key, endT, cs, plan, f, clip) && i < |cs|
    ensures |plan| == |cs| && |f.offsets| == |plan| + 1
    ensures var c' := SeenAt(r, m, plan, f, I64(key.time), i);
      match SourceKept(r, m, key, endT, cs, i)
      case Ok(bs) => ReadBlocks(clip, c').Ok? && SameBlocks(clip, ReadBlocks(clip, c').value, r, bs, key.time)
      case Err(x) => ReadBlocks(clip, c') == Err(x)
  {
    hide ClipOf, NewHeader, At, Image, KeptOf, BodiesOk, ReadCluster, StartsBlocks, ReadBlocks, SameBlocks, AllStand,
         NewElements, Flat, Flatten, I64, Shifted, InRange, Moved, SourceKept;
    var origin := I64(key.time);
    PlannedAt(r, m, key, endT, cs, plan, f, clip, i);
    KeptAsShould(r, m, key, endT, cs, i);
    ClusterReads(r, m, key, endT, cs, plan, f, clip, i);
    var p, k := plan[i], KeptOf(r, m.videoTrack, key, endT, cs, i);
    NotWrapped(p.timestamp, key.time);
    NotWrapped(key.time, key.time);
    BodyOkParts(r, p, k, origin);
    var c' := SeenAt(r, m, plan, f, origin, i);
    match k {
      case Listed(bs, base) =>
        ListedBlocks(clip, c', r, bs, p.c.timestamp, base, origin);
        ListedSame(clip, c'.blocksOff, r, bs, p.c.timestamp, base, c'.timestamp, origin);
      case Whole =>
        WholeSame(clip, c', r, p.c, origin);
    }
  }

  lemma NotWrapped(t: nat, key: nat)
    requires key <= t < TWO63
    ensures I64(key) == key && I64(t) == t && Shifted(t, I64(key)) == t - key && I64(t - key) == t - key
  {
    ShiftExact(t, key);
  }

  // ---------------------------------------------------------------- walking the clip

  function AllSeen(r: Bytes, m: Meta, plan: seq<Planned>, f: Frame, origin: int): seq<Cluster>
    requires |f.offsets| == |plan| + 1
  {
    seq(|plan|, i requires 0 <= i < |plan| => SeenAt(r, m, plan, f, origin, i))
  }

  lemma CollectStep(clip: Bytes, off: nat, segmentEnd: nat, endT: nat, got: seq<Cluster>, c: Cluster)
    requires off < segmentEnd && ReadCluster(clip, off) == Ok(Some(c)) && c.timestamp < endT && off < c.end
    ensures Collect(clip, off, segmentEnd, endT, got) == Collect(clip, c.end, segmentEnd, endT, got + [c])
  {
    hide ReadCluster, ReadHeaderAt;
  }

  lemma {:induction false} WalkFrom(r: Bytes, m: Meta, key: CuePoint, endT: nat, cs: seq<Cluster>, plan: seq<Planned>,
          f: Frame, clip: Bytes, i: nat)
    requires ClipOf(r, m, key, endT, cs, plan, f, clip) && i <= |cs|
    ensures |plan| == |cs| > 0 && |f.offsets| == |plan| + 1 && SegmentStart(m) + f.offsets[i] >= 0
    ensures var all := AllSeen(r, m, plan, f, I64(key.time));
      Collect(clip, SegmentStart(m) + f.offsets[i], |clip|, TWO64, all[..i]) == Ok(all)
    decreases |cs| - i
  {
    hide ClipOf, SeenAt, ReadCluster;
    ClipSizes(r, m, key, endT, cs, plan, f, clip);
    var all := AllSeen(r, m, plan, f, I64(key.time));
    if i == |cs| {
      assert all[..i] == all;
      ClipPlace(r, m, key, endT, cs, plan, f, clip, i - 1);
      WalkEnd(clip, |clip|, all);
    } else {
      WalkStep(r, m, key, endT, cs, plan, f, clip, i, all[..i]);
      WalkFrom(r, m, key, endT, cs, plan, f, clip, i + 1);
      assert all[..i + 1] == all[..i] + [all[i]];
    }
  }

  lemma WalkStep(r: Bytes, m: Meta, key: CuePoint, endT: nat, cs: seq<Cluster>, plan: seq<Planned>, f: Frame,
          clip: Bytes, i: nat, got: seq<Cluster>)
    requires ClipOf(r, m, key, endT, cs, plan, f, clip) && i < |cs|
    ensures |plan| == |cs| && |f.offsets| == |plan| + 1
    ensures SegmentStart(m) + f.offsets[i] >= 0 && SegmentStart(m) + f.offsets[i + 1] >= 0
    ensures Collect(clip, SegmentStart(m) + f.offsets[i], |clip|, TWO64, got)
         == Collect(clip, SegmentStart(m) + f.offsets[i + 1], |clip|, TWO64,
           got + [SeenAt(r, m, plan, f, I64(key.time), i)])
  {
    hide ClipOf, ReadCluster, Collect, NewHeader, TimestampElement, BodyBytes, Image, At, I64;
    ClusterReads(r, m, key, endT, cs, plan, f, clip, i);
    ClipPlace(r, m, key, endT, cs, plan, f, clip, i);
    ClipTimestamp(r, m, key, endT, cs, plan, f, clip, i);
    HeaderHasTimestamp(plan[i], I64(key.time));
    CollectStep(clip, SegmentStart(m) + f.offsets[i], |clip|, TWO64, got, SeenAt(r, m, plan, f, I64(key.time), i));
  }

  lemma WalkEnd(clip: Bytes, end: nat, got: seq<Cluster>)
    ensures Collect(clip, end, end, TWO64, got) == Ok(got)
  {
  }

  lemma ClipSizes(r: Bytes, m: Meta, key: CuePoint, endT: nat, cs: seq<Cluster>, plan: seq<Planned>, f: Frame,
          clip: Bytes)
    requires ClipOf(r, m, key, endT, cs, plan, f, clip)
    ensures |plan| == |cs| > 0 && |f.offsets| == |plan| + 1
  {
    hide Chain, PlannedOk, AttachmentsOk, ClipBytes, FrameOf;
    var duration, title :| f == FrameOf(m, plan, I64(key.time), endT, duration, title);
    FrameOffsets(m, plan, I64(key.time), endT, duration, title);
  }

  lemma ClipTimestamp(r: Bytes, m: Meta, key: CuePoint, endT: nat, cs: seq<Cluster>, plan: seq<Planned>, f: Frame,
          clip: Bytes, i: nat)
    requires ClipOf(r, m, key, endT, cs, plan, f, clip) && i < |plan|
    ensures key.time <= plan[i].timestamp < TWO63
  {
    hide Chain, AttachmentsOk, ClipBytes, FrameOf, BodyOk, KeptOf;
    assert PlannedOk(r, m, key, endT, cs, plan[i], i);
  }

  /** Walking the clip from its first cluster to its end meets exactly the planned clusters, in order. */
  lemma WalkOfClip(r: Bytes, m: Meta, key: CuePoint, endT: nat, cs: seq<Cluster>, plan: seq<Planned>, f: Frame,
          clip: Bytes)
    requires ClipOf(r, m, key, endT, cs, plan, f, clip)
    ensures |plan| == |cs| > 0 && |f.offsets| == |plan| + 1 && SegmentStart(m) + f.offsets[0] >= 0
    ensures CollectClusters(clip, SegmentStart(m) + f.offsets[0], |clip|, TWO64) ==
      Ok(AllSeen(r, m, plan, f, I64(key.time)))
  {
    hide ClipOf, SeenAt, Collect;
    WalkFrom(r, m, key, endT, cs, plan, f, clip, 0);
  }
}
