/** BuildClip as its callers see it, in seconds: how they become ticks, and what the clip says of its own range.
    Seconds are real numbers here, so that nothing is rounded but where the source rounds. */
module MkvSeconds {
  import opened Basics
  import opened Ebml
  import opened Layouts
  import opened Mkv
  import opened MkvMeta
  import opened MkvKeep
  import opened MkvPlan
  import opened MkvSource
  import opened MkvTheorem
  import MkvBuild

  /** To the nearest integer, halves upwards; x is not negative. */
  function Round(x: real): nat
    requires x >= 0.0
  {
    (x + 0.5).Floor
  }

  /** A product, so named that proofs can leave it folded. */
  function Times(a: real, b: real): real { a * b }

  function Seconds(ticks: nat, scale: nat): real { Times(ticks as real, scale as real) / 1000000000.0 }

  function Ticks(sec: real, scale: nat): nat
    requires scale > 0
  {
    if sec <= 0.0 then 0 else Round(Scaled(sec, scale))
  }

  /** A time in seconds as a number of ticks, not yet rounded. */
  function Scaled(sec: real, scale: nat): (x: real)
    requires scale > 0
    ensures sec >= 0.0 ==> x >= 0.0
  {
    sec * 1000000000.0 / scale as real
  }

  datatype Clip = Clip(parts: seq<Part>, actualStart: real, actualEnd: real)

  /** The file's duration in whole ticks, when it is known. */
  function WholeTicks(length: real): Option<nat> { if length > 0.0 then Some(length.Floor) else None }

  /** The clip of [start, end) seconds of a file that is `length` ticks long. */
  function Build(r: Bytes, m: Meta, length: real, start: real, end: real, duration: Bytes, title: Bytes): Result<Clip>
    requires m.cues != [] && m.timestampScale > 0
  {
    if end <= start then Err(OutOfRange) else
    var startT, dur := Ticks(start, m.timestampScale), WholeTicks(length);
    var endT := Ticks(end, m.timestampScale);
    var parts :- Mkv.BuildClip(r, m, startT, endT, dur, duration, title);
    Ok(Clip(parts, Seconds(U64(I64(KeyCue(m.cues, startT).time)), m.timestampScale),
      Seconds(CutEnd(endT, dur), m.timestampScale)))
  }

  /** BuildClip on the Source object, between the conversions. */
  method BuildClip(r: Bytes, s: Source, length: real, start: real, end: real, duration: Bytes, title: Bytes)
    returns (res: Result<Clip>)
    requires s.cues != [] && Sorted(s.cues) && s.timestampScale > 0
    ensures res == Build(r, s.AsMeta(), length, start, end, duration, title)
  {
    hide Mkv.BuildClip, Sorted, FirstAfter, Ticks, Seconds, I64, U64;
    if end <= start {
      return Err(OutOfRange);
    }
    var startT, endT := Ticks(start, s.timestampScale), Ticks(end, s.timestampScale);
    var dur := if length > 0.0 then Some(length.Floor) else None;
    var parts := MkvBuild.BuildClip(r, s, startT, endT, dur, duration, title);
    if parts.Err? {
      return Err(parts.error);
    }
    var ci := s.SearchCues(startT);
    FirstAfterInside(s.cues, startT);
    var key := s.cues[if ci > 0 then ci - 1 else 0];
    if dur.Some? && dur.value < endT {
      endT := dur.value;
    }
    return Ok(Clip(parts.value, Seconds(U64(I64(key.time)), s.timestampScale), Seconds(endT, s.timestampScale)));
  }

  // ---------------------------------------------------------------- rounding

  lemma Rounded(x: real)
    requires x >= 0.0
    ensures x - 0.5 < Round(x) as real <= x + 0.5
  {
  }

  lemma RoundOrdered(x: real, y: real)
    requires 0.0 <= x <= y
    ensures Round(x) <= Round(y)
  {
    Rounded(x);
    Rounded(y);
  }

  lemma ScaledOrdered(a: real, b: real, scale: nat)
    requires a <= b && scale > 0
    ensures Scaled(a, scale) <= Scaled(b, scale)
  {
    DivOrdered(a * 1000000000.0, b * 1000000000.0, scale as real);
  }

  lemma DivOrdered(a: real, b: real, c: real)
    requires a <= b && c > 0.0
    ensures a / c <= b / c
  {
    assert a / c * c == a && b / c * c == b;
  }

  /** Later times have no fewer ticks. */
  lemma TicksOrdered(a: real, b: real, scale: nat)
    requires a <= b && scale > 0
    ensures Ticks(a, scale) <= Ticks(b, scale)
  {
    hide Round, Scaled;
    if a > 0.0 {
      ScaledOrdered(a, b, scale);
      RoundOrdered(Scaled(a, scale), Scaled(b, scale));
    }
  }

  /** Half a tick, in seconds. */
  function HalfTick(scale: nat): real { scale as real / 2000000000.0 }

  lemma ScaledBack(sec: real, scale: nat)
    requires scale > 0
    ensures Times(Scaled(sec, scale), scale as real) / 1000000000.0 == sec
  {
    var c := scale as real;
    assert sec * 1000000000.0 / c * c == sec * 1000000000.0;
  }

  lemma Within(a: real, b: real, c: real)
    requires a <= b + 0.5 && c > 0.0
    ensures Times(a, c) <= Times(b, c) + c / 2.0
  {
    var d := b + 0.5 - a;
    assert a == b + 0.5 - d;
    assert d * c >= 0.0;
    assert Times(a, c) == b * c + 0.5 * c - d * c;
  }

  /** Ticks is the nearest tick: back in seconds it is no more than half a tick away; tick 0 before the start. */
  lemma TicksNearest(sec: real, scale: nat)
    requires scale > 0
    ensures sec >= 0.0 ==> sec - HalfTick(scale) <= Seconds(Ticks(sec, scale), scale) <= sec + HalfTick(scale)
    ensures sec <= 0.0 ==> Ticks(sec, scale) == 0
  {
    hide Times;
    var c := scale as real;
    if sec > 0.0 {
      var x := Scaled(sec, scale);
      Rounded(x);
      ScaledBack(sec, scale);
      Within(Round(x) as real, x, c);
      Within(x, Round(x) as real, c);
    } else {
      TimesZero(c);
    }
  }

  lemma TimesZero(c: real)
    ensures Times(0.0, c) == 0.0
  {
  }

  lemma SecondsOrdered(a: nat, b: nat, scale: nat)
    requires scale > 0
    ensures a < b <==> Seconds(a, scale) < Seconds(b, scale)
  {
    var c := scale as real;
    assert (b as real - a as real) * c > 0.0 <==> a < b;
  }

  /** A time given by Seconds is found again. */
  lemma TicksOfSeconds(t: nat, scale: nat)
    requires scale > 0
    ensures Ticks(Seconds(t, scale), scale) == t
  {
    hide Round;
    var c := scale as real;
    assert t as real * c >= 0.0;
    if t > 0 {
      SecondsOrdered(0, t, scale);
      assert Scaled(Seconds(t, scale), scale) == t as real;
      Rounded(t as real);
    }
  }

  // ---------------------------------------------------------------- what the clip says of its range

  lemma BuildRange(r: Bytes, m: Meta, startT: nat, endT: nat, dur: Option<nat>, duration: Bytes, title: Bytes)
    requires m.cues != [] && Mkv.BuildClip(r, m, startT, endT, dur, duration, title).Ok?
    ensures KeyCue(m.cues, startT).time < CutEnd(endT, dur) && (dur.Some? ==> startT < dur.value)
  {
    hide CollectClusters, PlanClusters, Assemble, KeyCue, NoneBefore;
  }

  lemma CueTime64(r: Bytes, m: Meta, t: nat)
    requires MetaOk(r, m)
    ensures U64(I64(KeyCue(m.cues, t).time)) == KeyCue(m.cues, t).time
  {
    hide KeyCue, FirstAfter, I64, U64, MetaOk, Sorted;
    CuesSorted(r, m);
    KeyCueIsLast(m.cues, t);
    Wrapped(KeyCue(m.cues, t).time);
  }

  lemma Wrapped(t: nat)
    requires t < TWO64
    ensures U64(I64(t)) == t
  {
  }

  lemma {:induction false} ScaleNotZero(info: seq<Element>)
    ensures ScaleOf(info) > 0
  {
    if info != [] { ScaleNotZero(info[..|info| - 1]); }
  }

  /** So the conversions are defined for every Source. */
  lemma ScalePositive(r: Bytes, m: Meta)
    requires MetaOk(r, m)
    ensures m.timestampScale > 0
  {
    hide HeaderOk, AllElements, Flat, VideoIn, MaybeAttachments, Sorted, Times64;
    ScaleNotZero(m.infoChildren);
  }

  /** The range a clip reports is not empty, ends within half a tick of what was asked for or with the file, and
      starts at a keyframe: no other one lies between it and the start, and it is itself no more than half a tick
      behind the start unless all keyframes are. */
  lemma ClipTimes(r: Bytes, m: Meta, length: real, start: real, end: real, duration: Bytes, title: Bytes)
    requires MetaOk(r, m) && m.cues != [] && m.timestampScale > 0
    requires Build(r, m, length, start, end, duration, title).Ok?
    ensures var c := Build(r, m, length, start, end, duration, title).value; var scale := m.timestampScale;
      && c.actualStart < c.actualEnd <= end + HalfTick(scale)
      && (length > 0.0 ==> c.actualEnd <= Times(length, scale as real) / 1000000000.0)
      && (c.actualEnd >= end - HalfTick(scale)
          || (length > 0.0 && c.actualEnd > Times(length - 1.0, scale as real) / 1000000000.0))
      && (exists q :: q in m.cues && c.actualStart == Seconds(q.time, scale))
      && (forall q :: q in m.cues && Seconds(q.time, scale) <= start ==> Seconds(q.time, scale) <= c.actualStart)
      && ((exists q :: q in m.cues && Seconds(q.time, scale) <= start) ==> c.actualStart <= start + HalfTick(scale))
  {
    hide Mkv.BuildClip, KeyCue, MetaOk, Sorted, I64, U64, Ticks, Seconds, Round, Scaled;
    var scale := m.timestampScale;
    var startT, endT, dur := Ticks(start, scale), Ticks(end, scale), WholeTicks(length);
    var key := KeyCue(m.cues, startT);
    BuildRange(r, m, startT, endT, dur, duration, title);
    CueTime64(r, m, startT);
    SecondsOrdered(key.time, CutEnd(endT, dur), scale);
    EndNear(length, end, scale);
    CuesSorted(r, m);
    KeyCueIsLast(m.cues, startT);
    forall q | q in m.cues && Seconds(q.time, scale) <= start
      ensures Seconds(q.time, scale) <= Seconds(key.time, scale) <= start + HalfTick(scale)
    {
      TicksOfSeconds(q.time, scale);
      TicksOrdered(Seconds(q.time, scale), start, scale);
      SecondsOrdered(key.time, q.time, scale);
      StartNear(q.time, start, scale);
      SecondsOrdered(startT, key.time, scale);
    }
  }

  /** When there is a clip, in seconds: the range is not empty and starts before the end of the file and its keyframe
      before the end of the range, as ticks, and clusters it can be cut from are there. */
  lemma BuildsExactly(r: Bytes, m: Meta, length: real, start: real, end: real, duration: Bytes, title: Bytes)
    requires m.cues != [] && m.timestampScale > 0 && Ticks(end, m.timestampScale) < TWO63
    ensures var startT, endT := Ticks(start, m.timestampScale), Ticks(end, m.timestampScale);
      var key := KeyCue(m.cues, startT);
      var stop := if length > 0.0 && length.Floor < endT then length.Floor else endT;
      Build(r, m, length, start, end, duration, title).Ok? <==>
        && start < end && (length > 0.0 ==> startT < length.Floor) && key.time < stop
        && exists cs :: Chain(r, key.clusterOff, m.segmentEnd, stop, true, cs) && Cuttable(r, m, key, stop, cs)
  {
    hide Mkv.BuildClip, KeyCue, Chain, Cuttable, Ticks, Seconds, I64, U64;
    BuildExactly(r, m, Ticks(start, m.timestampScale), Ticks(end, m.timestampScale), WholeTicks(length), duration,
      title);
  }

  lemma CuesSorted(r: Bytes, m: Meta)
    requires MetaOk(r, m)
    ensures m.cues != [] && Sorted(m.cues) && forall q :: q in m.cues ==> q.time < TWO64
  {
    hide Sorted, HeaderOk, AllElements, VideoIn, MaybeAttachments, ScaleOf, Flat;
  }

  lemma StartNear(t: nat, start: real, scale: nat)
    requires scale > 0 && Seconds(t, scale) <= start
    ensures Seconds(Ticks(start, scale), scale) <= start + HalfTick(scale)
  {
    hide Ticks;
    assert t as real * scale as real >= 0.0;
    TicksNearest(start, scale);
  }

  lemma EndNear(length: real, end: real, scale: nat)
    requires scale > 0 && CutEnd(Ticks(end, scale), WholeTicks(length)) > 0
    ensures var e := Seconds(CutEnd(Ticks(end, scale), WholeTicks(length)), scale);
      && e <= end + HalfTick(scale) && (length > 0.0 ==> e <= Times(length, scale as real) / 1000000000.0)
      && (e >= end - HalfTick(scale) || (length > 0.0 && e > Times(length - 1.0, scale as real) / 1000000000.0))
  {
    hide Round, Scaled;
    var t, e := Ticks(end, scale), CutEnd(Ticks(end, scale), WholeTicks(length));
    TicksNearest(end, scale);
    SecondsOrdered(t, e, scale);
    if length > 0.0 {
      var c := scale as real;
      assert length - 1.0 < length.Floor as real <= length && e as real <= length;
      assert (length - e as real) * c >= 0.0;
      if e != t { TimesLess(length - 1.0, e as real, c); }
    }
  }

  lemma TimesLess(a: real, b: real, c: real)
    requires a < b && c > 0.0
    ensures Times(a, c) < Times(b, c)
  {
    assert (b - a) * c > 0.0;
    assert (b - a) * c == b * c - a * c;
  }
}
