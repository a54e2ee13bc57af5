/** The clip's Cues: which of the source's cues survive, and that the reader finds them, each pointing
    at its cluster's first byte in the clip. */
module MkvCues {
  import opened Basics
  import opened Ebml
  import opened Mkv
  import opened MkvPlan
  import opened MkvMeta
  import opened MkvReopen

  // ---------------------------------------------------------------- one cue point

  function Positions(video: nat, pos: int): Element { Encoded(ID_CUE_TRACK_POSITIONS, CueTarget(video, pos)) }

  lemma TargetOk(video: nat, pos: int)
    requires video < TWO64 && 0 <= pos < TWO64
    ensures IsElement(Positions(video, pos)) && |Positions(video, pos).raw| <= 52
    ensures Elements(Positions(video, pos).data) ==
      Ok([UintElement(ID_CUE_TRACK, video), WideElement(ID_CUE_CLUSTER_POSITION, pos)])
  {
    hide Elements, EncodeElement, IsElement, BeBytes, UintWidthFrom;
    var a, b := UintElement(ID_CUE_TRACK, video), WideElement(ID_CUE_CLUSTER_POSITION, pos);
    UintElementOk(ID_CUE_TRACK, video);
    WideElementOk(ID_CUE_CLUSTER_POSITION, pos);
    TwoElements(a, b);
    EncodedLengthBound(ID_CUE_TRACK, BeBytes(video, UintWidthFrom(video, 1)));
    EncodedLengthBound(ID_CUE_CLUSTER_POSITION, BeBytes(pos, 8));
    EncodedIsElement(ID_CUE_TRACK_POSITIONS, a.raw + b.raw);
    EncodedLengthBound(ID_CUE_TRACK_POSITIONS, a.raw + b.raw);
    assert CueTarget(video, pos) == a.raw + b.raw;
  }

  lemma TargetUints(video: nat, pos: nat)
    requires video < TWO64 && pos < TWO64
    ensures var kids := [UintElement(ID_CUE_TRACK, video), WideElement(ID_CUE_CLUSTER_POSITION, pos)];
      LastUint(kids, ID_CUE_TRACK) == video && LastData(kids, ID_CUE_CLUSTER_POSITION).Some?
        && LastUint(kids, ID_CUE_CLUSTER_POSITION) == pos
  {
    hide EncodeElement, BeBytes, UintOr0, LastData, UintWidthFrom;
    UintElementOk(ID_CUE_TRACK, video);
    WideElementOk(ID_CUE_CLUSTER_POSITION, pos);
    var a, b := UintElement(ID_CUE_TRACK, video), WideElement(ID_CUE_CLUSTER_POSITION, pos);
    LastOfTwo(a, b, ID_CUE_TRACK);
    LastOfTwo(a, b, ID_CUE_CLUSTER_POSITION);
  }

  lemma CueElementOk(time: nat, video: nat, pos: int)
    requires time < TWO64 && video < TWO64 && 0 <= pos < TWO64
    ensures IsElement(CueElement(time, video, pos))
    ensures Elements(CueElement(time, video, pos).data) == Ok([UintElement(ID_CUE_TIME, time), Positions(video, pos)])
  {
    hide Elements, EncodeElement, IsElement, BeBytes, UintWidthFrom, CueTarget;
    var a, b := UintElement(ID_CUE_TIME, time), Positions(video, pos);
    UintElementOk(ID_CUE_TIME, time);
    TargetOk(video, pos);
    TwoElements(a, b);
    EncodedLengthBound(ID_CUE_TIME, BeBytes(time, UintWidthFrom(time, 1)));
    EncodedIsElement(ID_CUE_POINT, a.raw + b.raw);
    assert CueElement(time, video, pos) == Encoded(ID_CUE_POINT, a.raw + b.raw);
  }

  lemma CueKids(time: nat, video: nat, pos: nat, segmentData: nat, size: nat)
    requires time < TWO64 && video < TWO64 && pos < TWO64 && pos < size
    ensures var kids := [UintElement(ID_CUE_TIME, time), Positions(video, pos)];
      LastUint(kids, ID_CUE_TIME) == time
      && PositionsIn(kids, time, video, segmentData, size) == Ok([CuePoint(time, segmentData + pos)])
  {
    hide EncodeElement, BeBytes, UintOr0, LastData, UintWidthFrom, CueTarget, Elements, WideElement;
    var a, b := UintElement(ID_CUE_TIME, time), Positions(video, pos);
    UintElementOk(ID_CUE_TIME, time);
    LastOfTwo(a, b, ID_CUE_TIME);
    TargetOk(video, pos);
    TargetUints(video, pos);
    assert [a, b][1..] == [b] && [b][1..] == [];
    assert PositionsIn([], time, video, segmentData, size) == Ok([]);
    var here := [CuePoint(time, segmentData + pos)];
    assert here + [] == here;
    assert PositionsIn([b], time, video, segmentData, size) == Ok(here);
    assert a.id != ID_CUE_TRACK_POSITIONS;
  }

  // ---------------------------------------------------------------- all of them

  /** The cue points as the clip's reader should see them. */
  function CuesOut(cues: seq<NewCue>, start: nat, offsets: seq<int>): seq<CuePoint> {
    if cues == [] then [] else
    var at := start + OffsetOf(offsets, cues[0].cluster);
    [CuePoint(cues[0].time, if at >= 0 then at else 0)] + CuesOut(cues[1..], start, offsets)
  }

  predicate Reachable(cues: seq<NewCue>, offsets: seq<int>, size: nat) {
    forall q :: q in cues ==>
      q.time < TWO64 && 0 <= OffsetOf(offsets, q.cluster) < TWO64 && OffsetOf(offsets, q.cluster) < size
  }

  lemma {:induction false} CuesFound(cues: seq<NewCue>, video: nat, start: nat, offsets: seq<int>, size: nat)
    requires Reachable(cues, offsets, size) && video < TWO64
    ensures var es := CueElements(cues, video, offsets);
      AllElements(es) && CuesIn(es, video, start, size) == Ok(CuesOut(cues, start, offsets))
  {
    hide CueElement, IsElement, Elements, UintElement, Positions, PositionsIn, LastUint, OffsetOf;
    if cues != [] {
      var q := cues[0];
      CuesFound(cues[1..], video, start, offsets, size);
      var pos := OffsetOf(offsets, q.cluster);
      assert q in cues;
      CueElementOk(q.time, video, pos);
      CueKids(q.time, video, pos, start, size);
      CueID(q.time, video, pos);
      var es := CueElements(cues[1..], video, offsets);
      assert ([CueElement(q.time, video, pos)] + es)[1..] == es;
    }
  }

  lemma CueID(time: nat, video: nat, pos: int)
    ensures CueElement(time, video, pos).id == ID_CUE_POINT
  {
  }

  // ---------------------------------------------------------------- which cues survive

  lemma {:induction false} IndexOfFound(plan: seq<Planned>, i: nat)
    requires i < |plan|
    ensures IndexOf(plan, plan[i].c.off).Some?
  {
    if i < |plan| - 1 && plan[|plan| - 1].c.off != plan[i].c.off { IndexOfFound(plan[..|plan| - 1], i); }
  }

  /** A cue survives exactly when its cluster was collected and its time is in the clip. */
  lemma Survives(cp: CuePoint, plan: seq<Planned>, key: nat, endT: nat)
    requires key < endT < TWO63
    ensures CueSurvives(cp, plan, I64(key), endT) <==>
      (exists i :: 0 <= i < |plan| && plan[i].c.off == cp.clusterOff) && key <= cp.time < endT
  {
    if i :| 0 <= i < |plan| && plan[i].c.off == cp.clusterOff { IndexOfFound(plan, i); }
  }

  lemma {:induction false} NewCuesIn(cues: seq<CuePoint>, plan: seq<Planned>, key: nat, endT: nat, q: NewCue)
    requires key < endT < TWO63 && q in NewCues(cues, plan, I64(key), endT)
    ensures q.time < endT - key && q.cluster < |plan|
    ensures exists cp :: cp in cues && CueSurvives(cp, plan, I64(key), endT)
              && q.time == cp.time - key && plan[q.cluster].c.off == cp.clusterOff
  {
    hide IndexOf;
    var cp := cues[0];
    if CueSurvives(cp, plan, I64(key), endT)
      && q == NewCue(Shifted(cp.time, I64(key)), IndexOf(plan, cp.clusterOff).value)
    {
      assert cp in cues;
    } else {
      NewCuesIn(cues[1..], plan, key, endT, q);
    }
  }

  predicate NoneEarlier(cues: seq<CuePoint>, t: int) {
    forall c :: c in cues ==> c.time >= t
  }

  lemma SortedCons(c: CuePoint, cues: seq<CuePoint>, t: int)
    requires Sorted(cues) && NoneEarlier(cues, c.time) && t <= c.time
    ensures Sorted([c] + cues) && NoneEarlier([c] + cues, t)
  {
  }

  lemma NoneEarlierDown(cues: seq<CuePoint>, t: int, t': int)
    requires NoneEarlier(cues, t) && t' <= t
    ensures NoneEarlier(cues, t')
  {
  }

  lemma CuesOutCons(q: NewCue, rest: seq<NewCue>, start: nat, offsets: seq<int>) returns (c: CuePoint)
    ensures CuesOut([q] + rest, start, offsets) == [c] + CuesOut(rest, start, offsets) && c.time == q.time
  {
    assert ([q] + rest)[1..] == rest;
    c := CuesOut([q] + rest, start, offsets)[0];
  }

  lemma SurvivorTime(cp: CuePoint, plan: seq<Planned>, key: nat, endT: nat)
    requires key < endT < TWO63 && CueSurvives(cp, plan, I64(key), endT)
    ensures IndexOf(plan, cp.clusterOff).Some? && Shifted(cp.time, I64(key)) == cp.time - key
  {
    hide IndexOf, Shifted, I64;
    ShiftExact(key, key);
    ShiftExact(cp.time, key);
  }

  /** The clip's cues come out in ascending order, so the reader's sort leaves them as they are. */
  lemma {:induction false} NewCuesSorted(cues: seq<CuePoint>, plan: seq<Planned>, key: nat, endT: nat, start: nat,
          offsets: seq<int>, t: nat)
    requires key < endT < TWO63 && Sorted(cues) && NoneEarlier(cues, t)
    ensures Sorted(CuesOut(NewCues(cues, plan, I64(key), endT), start, offsets))
    ensures NoneEarlier(CuesOut(NewCues(cues, plan, I64(key), endT), start, offsets), t - key)
  {
    hide IndexOf, OffsetOf, CuesOut, Sorted, NoneEarlier, CueSurvives, Shifted, I64;
    if cues == [] {
      NoneOut(start, offsets, t - key);
    } else {
      SortedTail(cues, t);
      NewCuesSorted(cues[1..], plan, key, endT, start, offsets, cues[0].time);
      var rest := NewCues(cues[1..], plan, I64(key), endT);
      NoneEarlierDown(CuesOut(rest, start, offsets), cues[0].time - key, t - key);
      if CueSurvives(cues[0], plan, I64(key), endT) {
        SurvivorTime(cues[0], plan, key, endT);
        var q := NewCue(Shifted(cues[0].time, I64(key)), IndexOf(plan, cues[0].clusterOff).value);
        var c := CuesOutCons(q, rest, start, offsets);
        SortedCons(c, CuesOut(rest, start, offsets), t - key);
      } else {
        assert [] + rest == rest;
      }
    }
  }

  lemma NoneOut(start: nat, offsets: seq<int>, t: int)
    ensures Sorted(CuesOut([], start, offsets)) && NoneEarlier(CuesOut([], start, offsets), t)
  {
  }

  lemma SortedTail(cues: seq<CuePoint>, t: int)
    requires cues != [] && Sorted(cues) && NoneEarlier(cues, t)
    ensures Sorted(cues[1..]) && NoneEarlier(cues[1..], cues[0].time) && t <= cues[0].time
  {
    forall c | c in cues[1..]
      ensures c.time >= cues[0].time
    {
      var i :| 0 <= i < |cues[1..]| && cues[1..][i] == c;
    }
    assert cues[0] in cues;
  }
}
