/** What BuildClip plans for a source file: the clusters it collects and the body each of them gets. */
module MkvPlan {
  import opened Basics
  import opened Ebml
  import opened Layouts
  import opened Mkv
  import opened MkvBlocks
  import opened MkvBody
  import opened MkvCluster

  // ---------------------------------------------------------------- collected clusters

  /** The next cluster at or after off, skipping other elements; None when the Segment ends first
      or an element cannot be skipped. */
  function NextCluster(r: Bytes, off: nat, segmentEnd: nat): Result<Option<Cluster>>
    decreases segmentEnd - off
  {
    if off >= segmentEnd then Ok(None) else
    var c :- ReadCluster(r, off);
    if c.Some? then Ok(c) else
    HeaderBounds(r, off);
    var h := ReadHeaderAt(r, off);
    if h.Err? || h.value.size == UNKNOWN_SIZE then Ok(None)
    else NextCluster(r, off + h.value.headerLen + h.value.size, segmentEnd)
  }

  /** cs are the clusters met from off on, each the next one after the end of the one before, up to
      the first (other than the very first of all) that starts at or after endT. */
  predicate Chain(r: Bytes, off: nat, segmentEnd: nat, endT: nat, first: bool, cs: seq<Cluster>)
    decreases |cs|
  {
    var next := NextCluster(r, off, segmentEnd);
    if cs == [] then next.Ok? && (next.value.None? || (!first && next.value.value.timestamp >= endT))
    else
      && next == Ok(Some(cs[0])) && (first || cs[0].timestamp < endT)
      && Chain(r, cs[0].end, segmentEnd, endT, false, cs[1..])
  }

  /** collectClusters returns exactly the chain of clusters from off on. */
  lemma {:induction false} CollectIsChain(r: Bytes, off: nat, segmentEnd: nat, endT: nat, got: seq<Cluster>)
    requires Collect(r, off, segmentEnd, endT, got).Ok?
    ensures got <= Collect(r, off, segmentEnd, endT, got).value
    ensures Chain(r, off, segmentEnd, endT, got == [], Collect(r, off, segmentEnd, endT, got).value[|got|..])
    decreases segmentEnd - off
  {
    hide ReadCluster, ReadHeaderAt;
    if off < segmentEnd {
      HeaderBounds(r, off);
      var found := ReadCluster(r, off).value;
      if found.None? {
        var h := ReadHeaderAt(r, off);
        if h.Ok? && h.value.size != UNKNOWN_SIZE {
          CollectIsChain(r, off + h.value.headerLen + h.value.size, segmentEnd, endT, got);
          SkipChain(r, off, segmentEnd, endT, got == [], Collect(r, off, segmentEnd, endT, got).value[|got|..]);
        }
      } else {
        var c := found.value;
        if got == [] || c.timestamp < endT {
          ClusterEnd(r, off);
          CollectIsChain(r, c.end, segmentEnd, endT, got + [c]);
          var all := Collect(r, c.end, segmentEnd, endT, got + [c]).value;
          assert all[|got|..][0] == c && all[|got|..][1..] == all[|got| + 1..];
        }
      }
    }
  }

  /** An element that is no cluster does not matter to a chain. */
  lemma SkipChain(r: Bytes, off: nat, segmentEnd: nat, endT: nat, first: bool, cs: seq<Cluster>)
    requires off < segmentEnd && ReadCluster(r, off) == Ok(None)
    requires ReadHeaderAt(r, off).Ok? && ReadHeaderAt(r, off).value.size >= 0
    requires ReadHeaderAt(r, off).value.headerLen > 0
    requires var h := ReadHeaderAt(r, off).value;
      Chain(r, off + h.headerLen + h.size, segmentEnd, endT, first, cs)
    ensures Chain(r, off, segmentEnd, endT, first, cs)
  {
    hide ReadCluster, ReadHeaderAt;
  }

  lemma {:induction false} NextClusterAt(r: Bytes, off: nat, segmentEnd: nat)
    requires NextCluster(r, off, segmentEnd).Ok? && NextCluster(r, off, segmentEnd).value.Some?
    ensures var c := NextCluster(r, off, segmentEnd).value.value;
      off <= c.off < c.blocksOff <= c.end && c.off < |r| && ReadCluster(r, c.off) == Ok(Some(c))
    decreases segmentEnd - off
  {
    hide ReadCluster, ReadHeaderAt;
    HeaderBounds(r, off);
    ClusterHeader(r, off);
    if ReadCluster(r, off).value.Some? {
      ClusterEnd(r, off);
    } else {
      var h := ReadHeaderAt(r, off).value;
      NextClusterAt(r, off + h.headerLen + h.size, segmentEnd);
    }
  }

  lemma ClusterHeader(r: Bytes, off: nat)
    requires ReadCluster(r, off).Ok?
    ensures ReadHeaderAt(r, off).Ok? && off < |r|
  {
    hide ClusterFrom, ParseHeader;
  }

  /** A cluster as found in the file: read there, in front of `next`. */
  predicate FoundAt(r: Bytes, c: Cluster, lo: nat) {
    lo <= c.off < c.blocksOff <= c.end && c.off < |r| && ReadCluster(r, c.off) == Ok(Some(c))
  }

  /** Chained clusters were all read from the file, in file order without overlap. */
  lemma {:induction false} ChainFound(r: Bytes, off: nat, segmentEnd: nat, endT: nat, first: bool, cs: seq<Cluster>)
    requires Chain(r, off, segmentEnd, endT, first, cs)
    ensures forall i :: 0 <= i < |cs| ==> FoundAt(r, cs[i], off)
    ensures forall i :: 0 < i < |cs| ==> FoundAt(r, cs[i], cs[i - 1].end)
    ensures forall i :: 0 <= i < |cs| && (i > 0 || !first) ==> cs[i].timestamp < endT
    decreases |cs|
  {
    hide NextCluster, ReadCluster;
    if cs != [] {
      NextClusterAt(r, off, segmentEnd);
      ChainFound(r, cs[0].end, segmentEnd, endT, false, cs[1..]);
      forall i | 0 < i < |cs|
        ensures FoundAt(r, cs[i], off) && FoundAt(r, cs[i], cs[i - 1].end) && cs[i].timestamp < endT
      {
        assert FoundAt(r, cs[1..][i - 1], cs[0].end);
        if i > 1 { assert cs[1..][i - 2] == cs[i - 1] && FoundAt(r, cs[1..][i - 1], cs[1..][i - 2].end); }
      }
    }
  }

  /** A cluster before another one lies inside the file. */
  lemma {:induction false} ChainEnds(r: Bytes, off: nat, segmentEnd: nat, endT: nat, first: bool, cs: seq<Cluster>)
    requires Chain(r, off, segmentEnd, endT, first, cs)
    ensures forall i :: 0 <= i < |cs| - 1 ==> cs[i].end < |r|
    ensures forall i, j :: 0 <= i < j < |cs| ==> cs[i].end <= cs[j].off
    decreases |cs|
  {
    hide NextCluster, ReadCluster;
    if cs != [] {
      ChainEnds(r, cs[0].end, segmentEnd, endT, false, cs[1..]);
      ChainFound(r, cs[0].end, segmentEnd, endT, false, cs[1..]);
      forall i | 0 <= i < |cs| - 1
        ensures cs[i].end < |r|
      {
        assert FoundAt(r, cs[1..][0], cs[0].end);
        if i > 0 { assert cs[1..][i - 1] == cs[i]; }
      }
      forall i, j | 0 <= i < j < |cs|
        ensures cs[i].end <= cs[j].off
      {
        assert FoundAt(r, cs[1..][j - 1], cs[0].end);
        if i > 0 { assert cs[1..][i - 1] == cs[i] && cs[1..][j - 1] == cs[j]; }
      }
    }
  }

  // ---------------------------------------------------------------- timestamps

  lemma UintOr0Bound(b: Bytes)
    ensures UintOr0(b) < TWO64
  {
    if |b| <= 8 {
      BeValBound(b);
      PowTable();
    }
  }

  lemma {:induction false} TimestampBound(r: Bytes, off: nat, p: nat, end: nat, ts: Option<nat>)
    requires ClusterFrom(r, off, p, end, ts).Ok? && (ts.Some? ==> ts.value < TWO64)
    ensures ClusterFrom(r, off, p, end, ts).value.timestamp < TWO64
    decreases end - p
  {
    hide ReadHeaderAt, ReadAt, UintOr0;
    if p < end {
      var h := ReadHeaderAt(r, p).value;
      HeaderBounds(r, p);
      var next := p + h.headerLen + h.size;
      if h.id == ID_TIMESTAMP {
        var b := ReadAt(r, p + h.headerLen, h.size).value;
        UintOr0Bound(b);
        TimestampBound(r, off, next, end, Some(UintOr0(b)));
      } else if h.id != ID_SIMPLE_BLOCK && h.id != ID_BLOCK_GROUP {
        TimestampBound(r, off, next, end, ts);
      }
    }
  }

  lemma ClusterTimestamp(r: Bytes, off: nat)
    requires ReadCluster(r, off).Ok? && ReadCluster(r, off).value.Some?
    ensures ReadCluster(r, off).value.value.timestamp < TWO64
  {
    hide ReadHeaderAt, ClusterFrom;
    HeaderBounds(r, off);
    var h := ReadHeaderAt(r, off).value;
    TimestampBound(r, off, off + h.headerLen, off + h.headerLen + h.size, None);
  }

  /** The shift of a timestamp not before the keyframe never wraps. */
  lemma ShiftExact(t: nat, key: nat)
    requires t < TWO64 && key < TWO63 && I64(t) >= I64(key)
    ensures I64(key) == key && I64(t) == t && t < TWO63 && Shifted(t, I64(key)) == t - key && I64(t - key) == t - key
  {
  }

  // ---------------------------------------------------------------- lengths

  function SumLen(bs: seq<Block>): nat {
    if bs == [] then 0 else bs[0].len + SumLen(bs[1..])
  }

  lemma {:induction false} BlocksInLength(kids: seq<Element>, off: nat, ts: nat)
    requires AllElements(kids) && forall i :: 0 <= i < |kids| ==> |kids[i].data| <= |kids[i].raw|
    requires BlocksIn(kids, off, ts).Ok?
    ensures SumLen(BlocksIn(kids, off, ts).value) <= |Flat(kids)|
  {
    hide ParseBlock, IsElement;
    if kids != [] {
      assert IsElement(kids[0]);
      BlocksInLength(kids[1..], off + |kids[0].raw|, ts);
      var b := ParseBlock(kids[0], off, ts).value;
      if b.Some? {
        TimestampPlace(kids[0], off, ts, b.value);
        assert ([b.value] + BlocksIn(kids[1..], off + |kids[0].raw|, ts).value)[1..] ==
          BlocksIn(kids[1..], off + |kids[0].raw|, ts).value;
      } else {
        var rest := BlocksIn(kids[1..], off + |kids[0].raw|, ts).value;
        assert [] + rest == rest;
      }
    }
  }

  lemma ReadBlocksLength(r: Bytes, c: Cluster)
    requires ReadBlocks(r, c).Ok?
    ensures SumLen(ReadBlocks(r, c).value) <= MAX_ELEMENT
  {
    hide Elements, BlocksIn, Flat, IsElement, SumLen;
    var body := ReadAt(r, c.blocksOff, c.end - c.blocksOff).value;
    ElementsTile(body);
    SanePayloads(Elements(body).value);
    BlocksInLength(Elements(body).value, c.blocksOff, c.timestamp);
  }

  lemma {:induction false} KeepUntilLength(bs: seq<Block>, video: nat, endT: int, done: bool)
    ensures SumLen(KeepUntil(bs, video, endT, done)) <= SumLen(bs)
  {
    if bs != [] {
      var rest := KeepUntil(bs[1..], video, endT, done || (bs[0].track == video && bs[0].time >= endT));
      KeepUntilLength(bs[1..], video, endT, done || (bs[0].track == video && bs[0].time >= endT));
      assert ([bs[0]] + rest)[1..] == rest && [] + rest == rest;
    }
  }

  lemma {:induction false} NotBeforeLength(bs: seq<Block>, t: int)
    ensures SumLen(NotBefore(bs, t)) <= SumLen(bs)
  {
    if bs != [] {
      NotBeforeLength(bs[1..], t);
      var rest := NotBefore(bs[1..], t);
      assert ([bs[0]] + rest)[1..] == rest && [] + rest == rest;
    }
  }

  lemma {:induction false} SuffixLength(bs: seq<Block>, k: nat)
    requires k <= |bs|
    ensures SumLen(bs[k..]) <= SumLen(bs)
  {
    if k > 0 {
      SuffixLength(bs[1..], k - 1);
      assert bs[1..][k - 1..] == bs[k..];
    } else {
      assert bs[0..] == bs;
    }
  }

  lemma KeepFromLength(bs: seq<Block>, video: nat, keyTime: int)
    ensures SumLen(KeepFrom(bs, video, keyTime)) <= SumLen(bs)
  {
    hide SumLen, NotBefore, KeyIndex;
    KeyIndexInside(bs, video, keyTime, 0);
    var k := KeyIndex(bs, video, keyTime, 0);
    NotBeforeLength(bs[k..], keyTime);
    SuffixLength(bs, k);
  }

  lemma {:induction false} NewElementsLength(r: Bytes, keep: seq<Block>, ts: nat, base: Option<int>, ts': nat,
          origin: int)
    requires AllStand(r, keep, ts) && Fits(keep, ts, base, ts', origin)
    ensures |Flat(NewElements(r, keep, base))| == SumLen(keep)
  {
    hide Stands, ElementOf, NewRaw, I64;
    if keep != [] {
      NewBlock(r, keep[0], ts, base, 0, ts', origin);
      NewElementsLength(r, keep[1..], ts, base, ts', origin);
    }
  }

  // ---------------------------------------------------------------- the body of each cluster

  /** What a planned cluster holds: listed blocks, with their timestamps rewritten against base if
      given; or the source cluster's blocks, unread. */
  datatype Kept = Listed(blocks: seq<Block>, base: Option<int>) | Whole

  function BlocksOr(r: Bytes, c: Cluster): seq<Block> {
    match ReadBlocks(r, c)
    case Ok(bs) => bs
    case Err(_) => []
  }

  /** What the clip keeps of the i-th collected cluster. */
  function KeptOf(r: Bytes, video: nat, key: CuePoint, endT: nat, cs: seq<Cluster>, i: nat): Kept
    requires i < |cs|
  {
    if i == 0 then
      Listed(FirstKept(BlocksOr(r, cs[0]), video, key, endT, |cs| == 1),
             if cs[0].timestamp == key.time then None else Some(I64(key.time)))
    else if i == |cs| - 1 then Listed(KeepUntil(BlocksOr(r, cs[i]), video, I64(endT), false), None)
    else Whole
  }

  /** p's body holds exactly what it should, and p's timestamp fits it. */
  predicate BodyOk(r: Bytes, p: Planned, k: Kept, origin: int) {
    var ts' := Shifted(p.timestamp, origin);
    match k
    case Listed(bs, base) =>
      && AllStand(r, bs, p.c.timestamp) && Fits(bs, p.c.timestamp, base, ts', origin)
      && AllOk(p.body, |r|) && Flatten(p.body, r) == Flat(NewElements(r, bs, base))
      && |Flatten(p.body, r)| <= MAX_ELEMENT
    case Whole =>
      && p.body == [Range(p.c.blocksOff, p.c.end - p.c.blocksOff)]
      && p.c.blocksOff <= p.c.end <= |r|
      && (p.c.blocksOff < p.c.end ==> StartsBlocks(r, p.c.blocksOff))
      && I64(ts') == I64(p.c.timestamp) - origin
  }

  lemma FirstKeptOk(r: Bytes, c: Cluster, video: nat, key: CuePoint, endT: nat, only: bool)
    requires ReadBlocks(r, c).Ok?
    ensures var keep := FirstKept(ReadBlocks(r, c).value, video, key, endT, only);
      AllStand(r, keep, c.timestamp) && SumLen(keep) <= MAX_ELEMENT
  {
    hide ReadBlocks, Stands, SumLen, KeepFrom, KeepUntil, I64;
    var bs := ReadBlocks(r, c).value;
    BlocksStand(r, c);
    ReadBlocksLength(r, c);
    KeepFromWithin(bs, video, I64(key.time));
    KeepFromLength(bs, video, I64(key.time));
    var keep := KeepFrom(bs, video, I64(key.time));
    KeepUntilWithin(keep, video, I64(endT), false);
    KeepUntilLength(keep, video, I64(endT), false);
  }

  lemma LastKeptOk(r: Bytes, c: Cluster, video: nat, endT: nat)
    requires ReadBlocks(r, c).Ok?
    ensures var keep := KeepUntil(ReadBlocks(r, c).value, video, I64(endT), false);
      AllStand(r, keep, c.timestamp) && SumLen(keep) <= MAX_ELEMENT
  {
    hide ReadBlocks, Stands, SumLen, KeepUntil, I64;
    BlocksStand(r, c);
    ReadBlocksLength(r, c);
    KeepUntilWithin(ReadBlocks(r, c).value, video, I64(endT), false);
    KeepUntilLength(ReadBlocks(r, c).value, video, I64(endT), false);
  }

  lemma FirstBodyOk(r: Bytes, c: Cluster, keep: seq<Block>, key: CuePoint)
    requires AllStand(r, keep, c.timestamp) && SumLen(keep) <= MAX_ELEMENT && FirstBody(c, keep, key).Ok?
    requires key.time < TWO63
    ensures BodyOk(r, Planned(c, key.time, FirstBody(c, keep, key).value),
                   Listed(keep, if c.timestamp == key.time then None else Some(I64(key.time))), I64(key.time))
  {
    hide AllStand, SumLen, RebasedParts, BlockParts, Flatten, Flat, NewElements, AllOk, InRange;
    var origin := I64(key.time);
    ShiftExact(key.time, key.time);
    if c.timestamp == key.time {
      BlockPartsBytes(r, keep, c.timestamp);
      NewElementsLength(r, keep, c.timestamp, None, 0, origin);
    } else {
      RebasedExactly(keep, origin);
      RebasedPartsBytes(r, keep, c.timestamp, origin);
      NewElementsLength(r, keep, c.timestamp, Some(origin), 0, origin);
    }
  }

  lemma LastBodyOk(r: Bytes, c: Cluster, keep: seq<Block>, key: CuePoint)
    requires AllStand(r, keep, c.timestamp) && SumLen(keep) <= MAX_ELEMENT
    requires c.timestamp < TWO64 && key.time < TWO63 && I64(c.timestamp) >= I64(key.time)
    ensures BodyOk(r, Planned(c, c.timestamp, BlockParts(keep)), Listed(keep, None), I64(key.time))
  {
    hide AllStand, SumLen, RebasedParts, BlockParts, Flatten, Flat, NewElements, AllOk, InRange, I64, Shifted;
    ShiftExact(c.timestamp, key.time);
    BlockPartsBytes(r, keep, c.timestamp);
    NewElementsLength(r, keep, c.timestamp, None, Shifted(c.timestamp, I64(key.time)), I64(key.time));
  }

  lemma MiddleBodyOk(r: Bytes, c: Cluster, key: CuePoint)
    requires ReadCluster(r, c.off) == Ok(Some(c)) && c.blocksOff <= c.end <= |r|
    requires key.time < TWO63 && I64(c.timestamp) >= I64(key.time)
    ensures BodyOk(r, Planned(c, c.timestamp, [Range(c.blocksOff, c.end - c.blocksOff)]), Whole, I64(key.time))
  {
    hide ReadCluster, StartsBlocks, I64, Shifted;
    ClusterTimestamp(r, c.off);
    ShiftExact(c.timestamp, key.time);
    ClusterBlocksStart(r, c.off);
  }

  lemma {:induction false} MiddleAt(cs: seq<Cluster>, i: nat)
    requires i < |cs|
    ensures |Middle(cs)| == |cs|
    ensures Middle(cs)[i] == Planned(cs[i], cs[i].timestamp, [Range(cs[i].blocksOff, cs[i].end - cs[i].blocksOff)])
  {
    if i > 0 { MiddleAt(cs[1..], i - 1); } else if |cs| > 1 { MiddleAt(cs[1..], 0); }
  }

  /** What PlanClusters makes of its clusters, one by one. */
  lemma PlanShape(r: Bytes, video: nat, key: CuePoint, endT: nat, cs: seq<Cluster>)
    requires cs != [] && PlanClusters(r, video, key, endT, cs).Ok?
    ensures var plan := PlanClusters(r, video, key, endT, cs).value; var n := |cs|;
      && |plan| == n && ReadBlocks(r, cs[0]).Ok? && (n > 1 ==> ReadBlocks(r, cs[n - 1]).Ok?)
      && (var keep := FirstKept(ReadBlocks(r, cs[0]).value, video, key, endT, n == 1);
          FirstBody(cs[0], keep, key).Ok? && plan[0] == Planned(cs[0], key.time, FirstBody(cs[0], keep, key).value))
      && (n > 1 ==> plan[n - 1] == Planned(cs[n - 1], cs[n - 1].timestamp,
             BlockParts(KeepUntil(ReadBlocks(r, cs[n - 1]).value, video, I64(endT), false))))
      && forall i :: 0 < i < n - 1 ==>
           plan[i] == Planned(cs[i], cs[i].timestamp, [Range(cs[i].blocksOff, cs[i].end - cs[i].blocksOff)])
  {
    hide ReadBlocks, FirstBody, FirstKept, BlockParts, KeepUntil, I64;
    var n := |cs|;
    if n > 2 {
      forall i | 0 < i < n - 1
        ensures |Middle(cs[1..n - 1])| == n - 2
        ensures Middle(cs[1..n - 1])[i - 1] ==
          Planned(cs[i], cs[i].timestamp, [Range(cs[i].blocksOff, cs[i].end - cs[i].blocksOff)])
      {
        MiddleAt(cs[1..n - 1], i - 1);
      }
      assert 0 < 1 < n - 1;
    }
  }

  /** The plan BuildClip succeeds with: its clusters are the chain from the key cue on, and each has
      the body it should. */
  predicate PlanOk(r: Bytes, m: Meta, key: CuePoint, endT: nat, cs: seq<Cluster>, plan: seq<Planned>) {
    && cs != [] && |plan| == |cs| && key.time < endT
    && Chain(r, key.clusterOff, m.segmentEnd, endT, true, cs)
    && forall i :: 0 <= i < |cs| ==> PlannedOk(r, m, key, endT, cs, plan[i], i)
  }

  predicate PlannedOk(r: Bytes, m: Meta, key: CuePoint, endT: nat, cs: seq<Cluster>, p: Planned, i: nat)
    requires i < |cs|
  {
    && p.c == cs[i] && p.timestamp == (if i == 0 then key.time else cs[i].timestamp)
    && key.time <= p.timestamp < TWO63 && (i == 0 || i == |cs| - 1 ==> ReadBlocks(r, cs[i]).Ok?)
    && BodyOk(r, p, KeptOf(r, m.videoTrack, key, endT, cs, i), I64(key.time))
  }

  lemma FirstPlanned(r: Bytes, m: Meta, key: CuePoint, endT: nat, cs: seq<Cluster>, p: Planned)
    requires cs != [] && key.time < TWO63 && ReadBlocks(r, cs[0]).Ok?
    requires var keep := FirstKept(ReadBlocks(r, cs[0]).value, m.videoTrack, key, endT, |cs| == 1);
      FirstBody(cs[0], keep, key).Ok? && p == Planned(cs[0], key.time, FirstBody(cs[0], keep, key).value)
    ensures PlannedOk(r, m, key, endT, cs, p, 0)
  {
    hide FirstBody, FirstKept, BodyOk, AllStand, ReadBlocks, I64, SumLen;
    FirstKeptOk(r, cs[0], m.videoTrack, key, endT, |cs| == 1);
    FirstBodyOk(r, cs[0], FirstKept(ReadBlocks(r, cs[0]).value, m.videoTrack, key, endT, |cs| == 1), key);
  }

  lemma LastPlanned(r: Bytes, m: Meta, key: CuePoint, endT: nat, cs: seq<Cluster>, p: Planned)
    requires |cs| > 1 && key.time < TWO63 && ReadBlocks(r, cs[|cs| - 1]).Ok?
    requires var c := cs[|cs| - 1];
      && c.timestamp < TWO64 && I64(c.timestamp) >= I64(key.time)
      && p == Planned(c, c.timestamp, BlockParts(KeepUntil(ReadBlocks(r, c).value, m.videoTrack, I64(endT), false)))
    ensures PlannedOk(r, m, key, endT, cs, p, |cs| - 1)
  {
    hide KeepUntil, BlockParts, BodyOk, AllStand, ReadBlocks, I64, SumLen;
    var c := cs[|cs| - 1];
    ShiftExact(c.timestamp, key.time);
    LastKeptOk(r, c, m.videoTrack, endT);
    LastBodyOk(r, c, KeepUntil(ReadBlocks(r, c).value, m.videoTrack, I64(endT), false), key);
  }

  lemma OnePlanned(r: Bytes, m: Meta, key: CuePoint, endT: nat, cs: seq<Cluster>, plan: seq<Planned>, i: nat)
    requires cs != [] && PlanClusters(r, m.videoTrack, key, endT, cs) == Ok(plan) && i < |cs|
    requires key.time < TWO63 && NoneBefore(plan, I64(key.time))
    requires FoundAt(r, cs[i], 0) && (i < |cs| - 1 ==> cs[i].end < |r|)
    ensures |plan| == |cs| && PlannedOk(r, m, key, endT, cs, plan[i], i)
  {
    hide PlanClusters, FirstBody, FirstKept, BlockParts, KeepUntil, BodyOk, ReadCluster, ReadBlocks, I64;
    PlanShape(r, m.videoTrack, key, endT, cs);
    ClusterTimestamp(r, cs[i].off);
    if i == 0 {
      FirstPlanned(r, m, key, endT, cs, plan[0]);
    } else if i == |cs| - 1 {
      LastPlanned(r, m, key, endT, cs, plan[i]);
    } else {
      ShiftExact(cs[i].timestamp, key.time);
      MiddleBodyOk(r, cs[i], key);
    }
  }

  /** A successful plan is as described. */
  lemma PlanClipOk(r: Bytes, m: Meta, startT: nat, endT: nat, key: CuePoint, plan: seq<Planned>)
    returns (cs: seq<Cluster>)
    requires m.cues != [] && PlanClip(r, m, startT, endT) == Ok((key, plan)) && endT < TWO63
    ensures PlanOk(r, m, key, endT, cs, plan) && key == KeyCue(m.cues, startT)
    ensures CollectClusters(r, key.clusterOff, m.segmentEnd, endT) == Ok(cs)
  {
    hide KeyCue, Collect, Chain, PlanClusters, NoneBefore, PlannedOk, I64, FoundAt;
    cs := CollectClusters(r, key.clusterOff, m.segmentEnd, endT).value;
    CollectIsChain(r, key.clusterOff, m.segmentEnd, endT, []);
    assert cs[0..] == cs;
    ChainFound(r, key.clusterOff, m.segmentEnd, endT, true, cs);
    ChainEnds(r, key.clusterOff, m.segmentEnd, endT, true, cs);
    FoundAnywhere(r, cs[0], key.clusterOff);
    OnePlanned(r, m, key, endT, cs, plan, 0);
    forall i | 0 <= i < |cs|
      ensures PlannedOk(r, m, key, endT, cs, plan[i], i)
    {
      FoundAnywhere(r, cs[i], key.clusterOff);
      OnePlanned(r, m, key, endT, cs, plan, i);
    }
  }

  lemma FoundAnywhere(r: Bytes, c: Cluster, lo: nat)
    requires FoundAt(r, c, lo)
    ensures FoundAt(r, c, 0)
  {
    hide ReadCluster;
  }
}
