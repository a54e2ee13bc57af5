/** What BuildClip keeps: which keyframe, which clusters, and which blocks of the first and last one. */
module MkvKeep {
  import opened Basics
  import opened Mkv
  import opened MkvBody
  import opened MkvPlan
  import opened MkvMeta

  // ---------------------------------------------------------------- keepUntil

  /** Block i stays: video while no video up to it, in decode order, reaches endT; the rest by its own time. */
  predicate Stays(blocks: seq<Block>, video: nat, endT: int, done: bool, i: nat)
    requires i < |blocks|
  {
    if blocks[i].track == video
    then !done && forall j :: 0 <= j <= i && blocks[j].track == video ==> blocks[j].time < endT
    else blocks[i].time < endT
  }

  function Staying(blocks: seq<Block>, video: nat, endT: int, done: bool): (s: seq<bool>)
    ensures |s| == |blocks|
  {
    seq(|blocks|, i requires 0 <= i < |blocks| => Stays(blocks, video, endT, done, i))
  }

  /** keepUntil keeps a decode-order prefix of the video and exactly the other blocks before endT. */
  lemma {:induction false} KeepUntilExactly(blocks: seq<Block>, video: nat, endT: int, done: bool)
    ensures KeepUntil(blocks, video, endT, done) == Pick(blocks, Staying(blocks, video, endT, done))
  {
    if blocks != [] {
      var b, rest := blocks[0], blocks[1..];
      var done' := done || (b.track == video && b.time >= endT);
      KeepUntilExactly(rest, video, endT, done');
      StayingTail(blocks, video, endT, done);
      assert Staying(blocks, video, endT, done)[0] <==> if b.track == video then !done' else b.time < endT;
    }
  }

  lemma StayingTail(blocks: seq<Block>, video: nat, endT: int, done: bool)
    requires blocks != []
    ensures Staying(blocks, video, endT, done)[1..]
         == Staying(blocks[1..], video, endT, done || (blocks[0].track == video && blocks[0].time >= endT))
  {
    var done' := done || (blocks[0].track == video && blocks[0].time >= endT);
    forall i | 0 <= i < |blocks| - 1
      ensures Stays(blocks, video, endT, done, i + 1) <==> Stays(blocks[1..], video, endT, done', i)
    {
      assert blocks[1..][i] == blocks[i + 1];
      if blocks[i + 1].track == video {
        if Stays(blocks, video, endT, done, i + 1) {
          assert blocks[0].track == video ==> blocks[0].time < endT;
          forall j | 0 <= j <= i && blocks[1..][j].track == video
            ensures blocks[1..][j].time < endT
          {
            assert blocks[1..][j] == blocks[j + 1];
          }
        }
        if Stays(blocks[1..], video, endT, done', i) {
          forall j | 0 <= j <= i + 1 && blocks[j].track == video
            ensures blocks[j].time < endT
          {
            if j > 0 { assert blocks[1..][j - 1] == blocks[j]; }
          }
        }
      }
    }
    SameMarks(Staying(blocks, video, endT, done), Staying(blocks[1..], video, endT, done'));
  }

  lemma SameMarks(a: seq<bool>, b: seq<bool>)
    requires |a| == |b| + 1 && forall i :: 0 <= i < |b| ==> a[i + 1] == b[i]
    ensures a[1..] == b
  {
  }

  /** Cutting twice is cutting at the earlier end: so cutting again changes nothing, and an earlier end
      keeps no more than a later one. */
  lemma {:induction false} KeepUntilTwice(blocks: seq<Block>, video: nat, endT: int, done: bool, endT': int,
          done': bool)
    ensures KeepUntil(KeepUntil(blocks, video, endT', done'), video, endT, done)
         == KeepUntil(blocks, video, if endT < endT' then endT else endT', done || done')
  {
    if blocks != [] {
      var b, rest := blocks[0], blocks[1..];
      var d' := done' || (b.track == video && b.time >= endT');
      var kept := KeepUntil(rest, video, endT', d');
      assert ([b] + kept)[1..] == kept && [] + kept == kept;
      var d := done || (b.track == video && b.time >= endT);
      if (if b.track == video then !d' else b.time < endT') {
        KeepUntilTwice(rest, video, endT, d, endT', d');
      } else {
        KeepUntilTwice(rest, video, endT, done, endT', d');
        var again := KeepUntil(kept, video, endT, done);
        assert [] + again == again;
      }
    }
  }

  // ---------------------------------------------------------------- keepFrom

  predicate IsKey(b: Block, video: nat, keyTime: int) { b.track == video && b.time == keyTime }

  /** KeyIndex is the first keyframe, or 0 when there is none. */
  lemma {:induction false} KeyIndexIsFirst(blocks: seq<Block>, video: nat, keyTime: int, i: nat)
    requires i <= |blocks|
    ensures var k := KeyIndex(blocks, video, keyTime, i);
      if exists j :: i <= j < |blocks| && IsKey(blocks[j], video, keyTime)
      then i <= k < |blocks| && IsKey(blocks[k], video, keyTime)
        && forall j :: i <= j < k ==> !IsKey(blocks[j], video, keyTime)
      else k == 0
    decreases |blocks| - i
  {
    if i < |blocks| && !IsKey(blocks[i], video, keyTime) { KeyIndexIsFirst(blocks, video, keyTime, i + 1); }
  }

  /** The blocks that do not display before t. */
  function Late(blocks: seq<Block>, t: int): (s: seq<bool>)
    ensures |s| == |blocks|
  {
    seq(|blocks|, i requires 0 <= i < |blocks| => blocks[i].time >= t)
  }

  lemma {:induction false} NotBeforeExactly(blocks: seq<Block>, t: int)
    ensures NotBefore(blocks, t) == Pick(blocks, Late(blocks, t))
  {
    if blocks != [] {
      NotBeforeExactly(blocks[1..], t);
      assert Late(blocks, t)[1..] == Late(blocks[1..], t);
    }
  }

  /** keepFrom keeps, in order, exactly what is stored from the keyframe on and does not display before it. */
  lemma KeepFromExactly(blocks: seq<Block>, video: nat, keyTime: int)
    ensures var k := KeyIndex(blocks, video, keyTime, 0);
      k <= |blocks| && KeepFrom(blocks, video, keyTime) == Pick(blocks[k..], Late(blocks[k..], keyTime))
  {
    hide NotBefore, Pick, KeyIndex;
    KeyIndexInside(blocks, video, keyTime, 0);
    NotBeforeExactly(blocks[KeyIndex(blocks, video, keyTime, 0)..], keyTime);
  }

  /** The only cluster of a clip keeps blocks with times in [key, endT); and its keyframe, when it has one,
      comes first. */
  lemma OneCluster(blocks: seq<Block>, video: nat, key: CuePoint, endT: nat)
    requires key.time < endT < TWO63
    ensures var keep := FirstKept(blocks, video, key, endT, true);
      && (forall b :: b in keep ==> b in blocks && key.time <= b.time < endT)
      && ((exists b :: b in blocks && IsKey(b, video, key.time)) ==> keep != [] && IsKey(keep[0], video, key.time))
  {
    hide NotBefore, KeepUntil, KeyIndex;
    ShiftExact(key.time, key.time);
    ShiftExact(endT, endT);
    KeyIndexInside(blocks, video, key.time, 0);
    KeyIndexIsFirst(blocks, video, key.time, 0);
    var k := KeyIndex(blocks, video, key.time, 0);
    NotBeforeWithin(blocks[k..], key.time);
    KeepUntilWithin(KeepFrom(blocks, video, key.time), video, endT, false);
    if b :| b in blocks && IsKey(b, video, key.time) {
      var j :| 0 <= j < |blocks| && blocks[j] == b;
      KeyStaysFirst(blocks[k..], video, key.time, endT);
    }
  }

  lemma KeyStaysFirst(blocks: seq<Block>, video: nat, keyTime: int, endT: int)
    requires blocks != [] && IsKey(blocks[0], video, keyTime) && keyTime < endT
    ensures var keep := KeepUntil(NotBefore(blocks, keyTime), video, endT, false); keep != [] && keep[0] == blocks[0]
  {
    assert NotBefore(blocks, keyTime)[0] == blocks[0];
  }

  // ---------------------------------------------------------------- what a cluster of the clip keeps

  /** k is the place of the first block of the keyframe; 0 when it is not among the blocks. */
  predicate StartsAt(bs: seq<Block>, video: nat, keyTime: int, k: nat) {
    if exists j :: 0 <= j < |bs| && IsKey(bs[j], video, keyTime)
    then k < |bs| && IsKey(bs[k], video, keyTime) && forall j :: 0 <= j < k ==> !IsKey(bs[j], video, keyTime)
    else k == 0
  }

  /** Block j of a source cluster is kept. In the first cluster of the clip nothing stays that is stored before the
      keyframe's block k or displays before it. In the last one a video block stays while no video block from there
      on, up to it and in decode order, is at or after the end, and another block when it is itself before the end. */
  predicate Keeps(bs: seq<Block>, video: nat, key: int, endT: int, first: bool, last: bool, k: nat, j: nat)
    requires j < |bs|
  {
    && (first ==> k <= j && bs[j].time >= key)
    && (last ==>
          if bs[j].track == video
          then forall i :: (if first then k else 0) <= i <= j && bs[i].track == video ==> bs[i].time < endT
          else bs[j].time < endT)
  }

  function Keeping(bs: seq<Block>, video: nat, key: int, endT: int, first: bool, last: bool, k: nat): (s: seq<bool>)
    ensures |s| == |bs|
  {
    seq(|bs|, j requires 0 <= j < |bs| => Keeps(bs, video, key, endT, first, last, k, j))
  }

  /** The blocks that are kept, in order. */
  function KeptBlocks(bs: seq<Block>, video: nat, key: int, endT: int, first: bool, last: bool, k: nat): seq<Block> {
    Pick(bs, Keeping(bs, video, key, endT, first, last, k))
  }

  lemma {:induction false} PickSuffix(bs: seq<Block>, marks: seq<bool>, k: nat)
    requires |bs| == |marks| && k <= |bs| && forall j :: 0 <= j < k ==> !marks[j]
    ensures Pick(bs, marks) == Pick(bs[k..], marks[k..])
  {
    if k > 0 {
      PickSuffix(bs[1..], marks[1..], k - 1);
      assert bs[1..][k - 1..] == bs[k..] && marks[1..][k - 1..] == marks[k..];
    } else {
      assert bs[0..] == bs && marks[0..] == marks;
    }
  }

  lemma {:induction false} PickAll(bs: seq<Block>, marks: seq<bool>)
    requires |bs| == |marks| && forall j :: 0 <= j < |bs| ==> marks[j]
    ensures Pick(bs, marks) == bs
  {
    if bs != [] {
      PickAll(bs[1..], marks[1..]);
      assert bs == [bs[0]] + bs[1..];
    }
  }

  lemma {:induction false} PickMember(bs: seq<Block>, marks: seq<bool>, b: Block)
    requires |bs| == |marks|
    ensures b in Pick(bs, marks) <==> exists j :: 0 <= j < |bs| && marks[j] && bs[j] == b
  {
    if bs != [] {
      PickMember(bs[1..], marks[1..], b);
      if j :| 0 <= j < |bs| && marks[j] && bs[j] == b {
        if j > 0 { assert marks[1..][j - 1] && bs[1..][j - 1] == b; }
      }
      if j :| 0 <= j < |bs| - 1 && marks[1..][j] && bs[1..][j] == b { assert marks[j + 1] && bs[j + 1] == b; }
    }
  }

  function Both(a: seq<bool>, b: seq<bool>): (s: seq<bool>)
    requires |a| == |b|
    ensures |s| == |a|
  {
    seq(|a|, i requires 0 <= i < |a| => a[i] && b[i])
  }

  /** Cutting at both ends at once: what displays before the keyframe does not count for the end. */
  lemma {:induction false} BothEnds(bs: seq<Block>, video: nat, key: int, endT: int, done: bool)
    requires key < endT
    ensures KeepUntil(NotBefore(bs, key), video, endT, done)
         == Pick(bs, Both(Late(bs, key), Staying(bs, video, endT, done)))
  {
    hide Late, Staying, Stays, Both;
    if bs != [] {
      var b, rest := bs[0], bs[1..];
      var done' := done || (b.track == video && b.time >= endT);
      BothEnds(rest, video, key, endT, done');
      BothTail(bs, video, key, endT, done);
      NotBeforeHead(bs, key);
      UntilHead(b, NotBefore(rest, key), video, endT, done);
    }
  }

  lemma BothTail(bs: seq<Block>, video: nat, key: int, endT: int, done: bool)
    requires bs != []
    ensures var b := bs[0]; var done' := done || (b.track == video && b.time >= endT);
      var all := Both(Late(bs, key), Staying(bs, video, endT, done));
      && all[1..] == Both(Late(bs[1..], key), Staying(bs[1..], video, endT, done'))
      && (all[0] <==> b.time >= key && if b.track == video then !done' else b.time < endT)
  {
    hide Stays;
    StayingTail(bs, video, endT, done);
    StaysNow(bs, video, endT, done);
  }

  lemma StaysNow(bs: seq<Block>, video: nat, endT: int, done: bool)
    requires bs != []
    ensures Stays(bs, video, endT, done, 0) <==>
      if bs[0].track == video then !done && bs[0].time < endT else bs[0].time < endT
  {
  }

  lemma NotBeforeHead(bs: seq<Block>, t: int)
    requires bs != []
    ensures NotBefore(bs, t) == if bs[0].time >= t then [bs[0]] + NotBefore(bs[1..], t) else NotBefore(bs[1..], t)
  {
  }

  lemma UntilHead(b: Block, rest: seq<Block>, video: nat, endT: int, done: bool)
    ensures var done' := done || (b.track == video && b.time >= endT);
      KeepUntil([b] + rest, video, endT, done) ==
        (if if b.track == video then !done' else b.time < endT then [b] else []) + KeepUntil(rest, video, endT, done')
  {
    assert ([b] + rest)[1..] == rest;
  }

  lemma KeyIndexStarts(bs: seq<Block>, video: nat, keyTime: int, k: nat)
    requires StartsAt(bs, video, keyTime, k)
    ensures k <= |bs| && KeyIndex(bs, video, keyTime, 0) == k
  {
    KeyIndexIsFirst(bs, video, keyTime, 0);
    var n := KeyIndex(bs, video, keyTime, 0);
    if exists j :: 0 <= j < |bs| && IsKey(bs[j], video, keyTime) {
      assert n <= k && k <= n;
    }
  }

  lemma IndexStarts(bs: seq<Block>, video: nat, keyTime: int)
    ensures StartsAt(bs, video, keyTime, KeyIndex(bs, video, keyTime, 0))
  {
    KeyIndexIsFirst(bs, video, keyTime, 0);
  }

  lemma StaysBehind(bs: seq<Block>, video: nat, key: int, endT: int, k: nat, j: nat)
    requires k <= j < |bs|
    ensures Stays(bs[k..], video, endT, false, j - k) <==>
      if bs[j].track == video then forall i :: k <= i <= j && bs[i].track == video ==> bs[i].time < endT
      else bs[j].time < endT
  {
    assert bs[k..][j - k] == bs[j];
    if bs[j].track == video {
      if Stays(bs[k..], video, endT, false, j - k) {
        forall i | k <= i <= j && bs[i].track == video
          ensures bs[i].time < endT
        {
          assert bs[k..][i - k] == bs[i];
        }
      }
    }
  }

  /** The first cluster of the clip, when there are more. */
  lemma FirstOfMore(bs: seq<Block>, video: nat, key: CuePoint, endT: nat, k: nat)
    requires key.time < TWO63 && StartsAt(bs, video, key.time, k)
    ensures FirstKept(bs, video, key, endT, false) == KeptBlocks(bs, video, key.time, endT, true, false, k)
  {
    hide NotBefore, KeepUntil, KeyIndex, Pick;
    ShiftExact(key.time, key.time);
    KeyIndexStarts(bs, video, key.time, k);
    NotBeforeExactly(bs[k..], key.time);
    var marks := Keeping(bs, video, key.time, endT, true, false, k);
    PickSuffix(bs, marks, k);
    assert marks[k..] == Late(bs[k..], key.time);
  }

  /** The only cluster of a clip. */
  lemma OnlyOne(bs: seq<Block>, video: nat, key: CuePoint, endT: nat, k: nat)
    requires key.time < endT < TWO63 && StartsAt(bs, video, key.time, k)
    ensures FirstKept(bs, video, key, endT, true) == KeptBlocks(bs, video, key.time, endT, true, true, k)
  {
    hide NotBefore, KeepUntil, KeyIndex, Pick, Stays, StartsAt, Both, Late, Staying, Keeping;
    ShiftExact(key.time, key.time);
    ShiftExact(endT, endT);
    KeyIndexStarts(bs, video, key.time, k);
    BothEnds(bs[k..], video, key.time, endT, false);
    OnlyMarks(bs, video, key.time, endT, k);
    PickSuffix(bs, Keeping(bs, video, key.time, endT, true, true, k), k);
  }

  lemma OnlyMarks(bs: seq<Block>, video: nat, key: int, endT: int, k: nat)
    requires k <= |bs|
    ensures var marks := Keeping(bs, video, key, endT, true, true, k);
      && (forall j :: 0 <= j < k ==> !marks[j])
      && marks[k..] == Both(Late(bs[k..], key), Staying(bs[k..], video, endT, false))
  {
    hide Stays;
    var marks := Keeping(bs, video, key, endT, true, true, k);
    var other := Both(Late(bs[k..], key), Staying(bs[k..], video, endT, false));
    forall j | 0 <= j < |bs| - k
      ensures marks[k..][j] == other[j]
    {
      StaysBehind(bs, video, key, endT, k, k + j);
      assert bs[k..][j] == bs[k + j];
    }
  }

  /** The last cluster of several. */
  lemma LastOfMore(bs: seq<Block>, video: nat, key: int, endT: nat, k: nat)
    requires endT < TWO63
    ensures KeepUntil(bs, video, I64(endT), false) == KeptBlocks(bs, video, key, endT, false, true, k)
  {
    hide KeepUntil, Pick, Stays;
    ShiftExact(endT, endT);
    KeepUntilExactly(bs, video, endT, false);
    assert bs[0..] == bs;
    forall j | 0 <= j < |bs|
      ensures Keeping(bs, video, key, endT, false, true, k)[j] <==> Staying(bs, video, endT, false)[j]
    {
      StaysBehind(bs, video, key, endT, 0, j);
    }
    assert Keeping(bs, video, key, endT, false, true, k) == Staying(bs, video, endT, false);
  }

  /** A cluster between the first and the last is kept whole. */
  lemma BetweenKept(bs: seq<Block>, video: nat, key: int, endT: int, k: nat)
    ensures KeptBlocks(bs, video, key, endT, false, false, k) == bs
  {
    hide Pick;
    PickAll(bs, Keeping(bs, video, key, endT, false, false, k));
  }

  lemma {:induction false} PickFirst(bs: seq<Block>, marks: seq<bool>)
    requires |bs| == |marks| && bs != [] && marks[0]
    ensures Pick(bs, marks) != [] && Pick(bs, marks)[0] == bs[0]
  {
  }

  /** So the clip starts at the keyframe: nothing of its first cluster displays before it, and when the keyframe is
      in that cluster it comes first. */
  lemma KeyComesFirst(bs: seq<Block>, video: nat, key: int, endT: int, last: bool, k: nat)
    requires StartsAt(bs, video, key, k) && key < endT
    ensures var keep := KeptBlocks(bs, video, key, endT, true, last, k);
      && (forall b :: b in keep ==> b in bs && b.time >= key)
      && ((exists b :: b in bs && IsKey(b, video, key)) ==> keep != [] && keep[0] == bs[k] && IsKey(bs[k], video, key))
  {
    hide Pick;
    var marks := Keeping(bs, video, key, endT, true, last, k);
    forall b | b in Pick(bs, marks)
      ensures b in bs && b.time >= key
    {
      PickMember(bs, marks, b);
    }
    if b :| b in bs && IsKey(b, video, key) {
      var j :| 0 <= j < |bs| && bs[j] == b;
      PickSuffix(bs, marks, k);
      PickFirst(bs[k..], marks[k..]);
    }
  }

  /** What cluster i of the clip should hold, said of the blocks of the source's. */
  function SourceKept(r: Bytes, m: Meta, key: CuePoint, endT: nat, cs: seq<Cluster>, i: nat): Result<seq<Block>>
    requires i < |cs|
  {
    match ReadBlocks(r, cs[i])
    case Err(x) => Err(x)
    case Ok(bs) =>
      Ok(KeptBlocks(bs, m.videoTrack, key.time, endT, i == 0, i == |cs| - 1, KeyIndex(bs, m.videoTrack, key.time, 0)))
  }

  /** What is planned for it is that. */
  lemma KeptAsShould(r: Bytes, m: Meta, key: CuePoint, endT: nat, cs: seq<Cluster>, i: nat)
    requires i < |cs| && key.time < endT < TWO63 && (i == 0 || i == |cs| - 1 ==> ReadBlocks(r, cs[i]).Ok?)
    ensures SourceKept(r, m, key, endT, cs, i) ==
      match KeptOf(r, m.videoTrack, key, endT, cs, i)
      case Listed(bs, _) => Ok(bs)
      case Whole => ReadBlocks(r, cs[i])
  {
    hide ReadBlocks, KeptBlocks, FirstKept, KeepUntil, KeyIndex, StartsAt;
    if ReadBlocks(r, cs[i]).Ok? {
      var bs := ReadBlocks(r, cs[i]).value;
      var k := KeyIndex(bs, m.videoTrack, key.time, 0);
      IndexStarts(bs, m.videoTrack, key.time);
      if i == 0 && |cs| == 1 {
        OnlyOne(bs, m.videoTrack, key, endT, k);
      } else if i == 0 {
        FirstOfMore(bs, m.videoTrack, key, endT, k);
      } else if i == |cs| - 1 {
        LastOfMore(bs, m.videoTrack, key.time, endT, k);
      } else {
        BetweenKept(bs, m.videoTrack, key.time, endT, k);
      }
    }
  }

  // ---------------------------------------------------------------- the keyframe

  lemma {:induction false} FirstAfterSplits(cues: seq<CuePoint>, t: nat)
    requires Sorted(cues)
    ensures var n := FirstAfter(cues, t);
      n <= |cues| && (forall i :: 0 <= i < n ==> cues[i].time <= t) && forall i :: n <= i < |cues| ==> cues[i].time > t
  {
    if cues != [] && cues[0].time <= t {
      FirstAfterSplits(cues[1..], t);
      forall i | 0 < i < |cues|
        ensures cues[i] == cues[1..][i - 1]
      {
      }
    }
  }

  /** The clip starts at the greatest cue at or before the requested start, or at the first cue when none is. */
  lemma KeyCueIsLast(cues: seq<CuePoint>, t: nat)
    requires Sorted(cues) && cues != []
    ensures var key := KeyCue(cues, t);
      && key in cues
      && (key.time <= t <==> exists c :: c in cues && c.time <= t)
      && (key.time <= t ==> forall c :: c in cues && c.time <= t ==> c.time <= key.time)
      && (key.time > t ==> key == cues[0] && forall c :: c in cues ==> c.time > t)
  {
    FirstAfterSplits(cues, t);
    hide FirstAfter;
    var n := FirstAfter(cues, t);
    forall c | c in cues
      ensures (n == 0 ==> c.time > t) && (n > 0 && c.time <= t ==> c.time <= cues[n - 1].time)
    {
      var i :| 0 <= i < |cues| && cues[i] == c;
    }
  }

  // ---------------------------------------------------------------- the clusters

  lemma {:induction false} ChainStops(r: Bytes, off: nat, segmentEnd: nat, endT: nat, first: bool, cs: seq<Cluster>)
    requires Chain(r, off, segmentEnd, endT, first, cs)
    ensures Chain(r, if cs == [] then off else cs[|cs| - 1].end, segmentEnd, endT, first && cs == [], [])
    decreases |cs|
  {
    hide NextCluster;
    if cs != [] {
      ChainStops(r, cs[0].end, segmentEnd, endT, false, cs[1..]);
      if |cs| > 1 { assert cs[1..][|cs| - 2] == cs[|cs| - 1]; }
    }
  }

  /** The collected clusters start with the first one at or after the key cue's place, follow each other in
      the file without overlap, start before endT all but perhaps the first, and stop in front of the end
      of the Segment or of a cluster at or after endT. */
  lemma Collected(r: Bytes, off: nat, segmentEnd: nat, endT: nat, cs: seq<Cluster>)
    requires CollectClusters(r, off, segmentEnd, endT) == Ok(cs)
    ensures cs != [] && NextCluster(r, off, segmentEnd) == Ok(Some(cs[0]))
    ensures forall i :: 0 <= i < |cs| ==> ReadCluster(r, cs[i].off) == Ok(Some(cs[i])) && off <= cs[i].off < cs[i].end
    ensures forall i :: 0 < i < |cs| ==> cs[i - 1].end <= cs[i].off && cs[i].timestamp < endT
    ensures forall i :: 0 <= i < |cs| - 1 ==> cs[i].end < |r|
    ensures var next := NextCluster(r, cs[|cs| - 1].end, segmentEnd);
      next.Ok? && (next.value.Some? ==> next.value.value.timestamp >= endT)
  {
    hide NextCluster, ReadCluster, Collect;
    CollectIsChain(r, off, segmentEnd, endT, []);
    assert cs[0..] == cs;
    ChainFound(r, off, segmentEnd, endT, true, cs);
    ChainEnds(r, off, segmentEnd, endT, true, cs);
    ChainStops(r, off, segmentEnd, endT, true, cs);
    forall i | 0 <= i < |cs|
      ensures ReadCluster(r, cs[i].off) == Ok(Some(cs[i])) && off <= cs[i].off < cs[i].end
    {
      assert FoundAt(r, cs[i], off);
    }
  }
}
