/** The Source of internal/mkv: Open fills its fields from the file, and collectClusters walks it. */
module MkvSource {
  import opened Basics
  import opened Ebml
  import opened Mkv
  import opened MkvMeta
  import opened MkvLoops

  /** es read after the cue points in got. */
  function CuesAfter(got: seq<CuePoint>, rest: Result<seq<CuePoint>>): Result<seq<CuePoint>> {
    match rest
    case Ok(more) => Ok(got + more)
    case Err(x) => Err(x)
  }

  lemma CuesAfterTwice(got: seq<CuePoint>, here: seq<CuePoint>, rest: Result<seq<CuePoint>>)
    ensures CuesAfter(got + here, rest) == CuesAfter(got, CuesAfter(here, rest))
  {
    if rest.Ok? { Assoc(got, here, rest.value); }
  }

  lemma CuesAfterNone(got: seq<CuePoint>, rest: Result<seq<CuePoint>>)
    ensures CuesAfter([], rest) == rest && CuesAfter(got, Ok([])) == Ok(got)
  {
    if rest.Ok? { assert [] + rest.value == rest.value; }
    assert got + [] == got;
  }

  /** An offset variable that starts as -1. */
  function Known(off: int): Option<nat> {
    if off < 0 then None else Some(off)
  }

  class Source {
    var size: nat
    var ebmlHeader: Bytes
    var segmentData: nat
    var segmentEnd: nat
    var timestampScale: nat
    var duration: Bytes
    var infoChildren: seq<Element>
    var tracksChildren: seq<Element>
    var videoTrack: nat
    var attachments: Option<(nat, nat)>
    var firstCluster: nat
    var cues: seq<CuePoint>

    constructor (size: nat)
      ensures this.size == size && timestampScale == 1000000 && duration == [] && videoTrack == 0 && attachments == None
      ensures firstCluster == 0 && cues == [] && infoChildren == [] && tracksChildren == []
    {
      this.size := size;
      timestampScale := 1000000;
      ebmlHeader, duration, infoChildren, tracksChildren, cues := [], [], [], [], [];
      segmentData, segmentEnd, videoTrack, firstCluster := 0, 0, 0, 0;
      attachments := None;
    }

    /** The fields as a value. */
    function AsMeta(): Meta
      reads this
    {
      Meta(size, ebmlHeader, segmentData, segmentEnd, timestampScale, duration, infoChildren, tracksChildren,
           videoTrack, attachments, firstCluster, cues)
    }

    method ReadInfo(r: Bytes, off: nat) returns (err: Option<Error>)
      requires timestampScale == 1000000 && duration == []
      modifies `infoChildren, `timestampScale, `duration
      ensures match ParseInfo(r, off)
              case Err(x) => err == Some(x)
              case Ok(es) =>
                err == None && infoChildren == es && timestampScale == ScaleOf(es) && duration == DurationOf(es)
    {
      hide ReadElement, Elements, UintOr0, LastData;
      var b := ReadElement(r, off, ID_INFO);
      if b.Err? {
        return Some(b.error);
      }
      var kids := Kids(b.value);
      if kids.Err? {
        return Some(kids.error);
      }
      infoChildren := kids.value;
      var es := infoChildren;
      NoData(ID_DURATION);
      assert es[..0] == [];
      for i := 0 to |es|
        invariant infoChildren == es && timestampScale == ScaleOf(es[..i])
        invariant duration == DurationOf(es[..i])
      {
        LastSnoc(es, i, ID_DURATION);
        assert es[..i + 1][..i] == es[..i];
        if es[i].id == ID_TIMESTAMP_SCALE {
          var v := UintOr0(es[i].data);
          if v > 0 {
            timestampScale := v;
          }
        } else if es[i].id == ID_DURATION {
          duration := es[i].data;
        }
      }
      WholeSeq(es);
      return None;
    }

    method ReadTracks(r: Bytes, off: nat) returns (err: Option<Error>)
      requires videoTrack == 0
      modifies `tracksChildren, `videoTrack
      ensures match ParseTracks(r, off)
              case Err(x) => err == Some(x)
              case Ok(t) => err == None && tracksChildren == t.0 && videoTrack == t.1
    {
      hide ReadElement, Elements, LastUint;
      var b := ReadElement(r, off, ID_TRACKS);
      if b.Err? {
        return Some(b.error);
      }
      var kids := Kids(b.value);
      if kids.Err? {
        return Some(kids.error);
      }
      tracksChildren := kids.value;
      var es := tracksChildren;
      WholeSeq(es);
      for i := 0 to |es|
        invariant tracksChildren == es && VideoIn(es, 0) == VideoIn(es[i..], videoTrack)
      {
        assert es[i..][1..] == es[i + 1..];
        if es[i].id != ID_TRACK_ENTRY {
          continue;
        }
        var entry := Kids(es[i].data);
        if entry.Err? {
          return Some(entry.error);
        }
        var num, typ, _ := TwoUints(entry.value, ID_TRACK_NUMBER, ID_TRACK_TYPE);
        if typ == 1 && videoTrack == 0 {
          videoTrack := num;
        }
      }
      assert es[|es|..] == [];
      if videoTrack == 0 {
        return Some(Unsupported);
      }
      return None;
    }

    /** The positions of one CuePoint, appended to the cues. */
    method ReadPositions(kids: seq<Element>, t: nat) returns (err: Option<Error>)
      modifies `cues
      ensures match PositionsIn(kids, t, videoTrack, segmentData, size)
              case Err(x) => err == Some(x)
              case Ok(here) => err == None && cues == old(cues) + here
    {
      hide Elements, LastUint, LastData;
      var all := PositionsIn(kids, t, videoTrack, segmentData, size);
      var was := cues;
      CuesAfterNone(was, all);
      WholeSeq(kids);
      for i := 0 to |kids|
        invariant CuesAfter(was, all) == CuesAfter(cues, PositionsIn(kids[i..], t, videoTrack, segmentData, size))
      {
        assert kids[i..][1..] == kids[i + 1..];
        ghost var rest := PositionsIn(kids[i + 1..], t, videoTrack, segmentData, size);
        if kids[i].id != ID_CUE_TRACK_POSITIONS {
          continue;
        }
        var pos := Kids(kids[i].data);
        if pos.Err? {
          return Some(pos.error);
        }
        var track, cluster, hasCluster := TwoUints(pos.value, ID_CUE_TRACK, ID_CUE_CLUSTER_POSITION);
        if track == videoTrack && hasCluster && cluster < size {
          CuesAfterTwice(cues, [CuePoint(t, segmentData + cluster)], rest);
          cues := cues + [CuePoint(t, segmentData + cluster)];
        }
      }
      assert kids[|kids|..] == [];
      CuesAfterNone(cues, Ok([]));
      return None;
    }

    method ReadCues(r: Bytes, off: nat) returns (err: Option<Error>)
      requires cues == [] && size == |r|
      modifies `cues
      ensures match ParseCues(r, off, videoTrack, segmentData)
              case Err(x) => err == Some(x)
              case Ok(cs) => err == None && cues == cs
    {
      hide ReadElement, Elements, LastUint, LastData, PositionsIn, SortCues;
      var b := ReadElement(r, off, ID_CUES);
      if b.Err? {
        return Some(b.error);
      }
      var kids := Kids(b.value);
      if kids.Err? {
        return Some(kids.error);
      }
      var points := kids.value;
      ghost var all := CuesIn(points, videoTrack, segmentData, size);
      CuesAfterNone([], all);
      WholeSeq(points);
      for i := 0 to |points|
        invariant all == CuesAfter(cues, CuesIn(points[i..], videoTrack, segmentData, size))
      {
        assert points[i..][1..] == points[i + 1..];
        if points[i].id != ID_CUE_POINT {
          continue;
        }
        var point := Kids(points[i].data);
        if point.Err? {
          return Some(point.error);
        }
        var t := OneUint(point.value, ID_CUE_TIME);
        ghost var before := cues;
        ghost var here := PositionsIn(point.value, t, videoTrack, segmentData, size);
        var bad := ReadPositions(point.value, t);
        if bad.Some? {
          return bad;
        }
        CuesAfterTwice(before, here.value, CuesIn(points[i + 1..], videoTrack, segmentData, size));
      }
      assert points[|points|..] == [];
      CuesAfterNone(cues, Ok([]));
      if cues == [] {
        return Some(Unsupported);
      }
      SortByTime();
      return None;
    }

    /** Sorts the cues by time; equal times keep their order. */
    method SortByTime()
      modifies `cues
      ensures cues == SortCues(old(cues)) && Sorted(cues) && multiset(cues) == multiset(old(cues))
    {
      hide Insert;
      var unsorted := cues;
      cues := [];
      assert unsorted[..0] == [];
      for i := 0 to |unsorted|
        invariant cues == SortCues(unsorted[..i])
      {
        assert unsorted[..i + 1][..i] == unsorted[..i];
        cues := Insert(cues, unsorted[i]);
      }
      WholeSeq(unsorted);
      SortCuesSorts(unsorted);
    }

    /** The top-level walk of Open: notes where Info, Tracks and Cues stand, and stops at the first cluster. */
    method Scan(r: Bytes) returns (infoOff: int, tracksOff: int, cuesOff: int, err: Option<Error>)
      requires attachments == None && firstCluster == 0 && segmentData > 0
      modifies `attachments, `firstCluster
      ensures match WalkTop(r, segmentData, segmentData, segmentEnd, Found(None, None, None, None))
              case Err(x) => err == Some(x)
              case Ok((f, c)) =>
                && err == None && firstCluster == c
                && f == Found(Known(infoOff), Known(tracksOff), Known(cuesOff), attachments)
    {
      hide ReadHeaderAt, ReadAt, SeekPosition;
      infoOff, tracksOff, cuesOff := -1, -1, -1;
      var off := segmentData;
      while off < segmentEnd
        invariant off >= segmentData && firstCluster == 0
        invariant WalkTop(r, segmentData, segmentData, segmentEnd, Found(None, None, None, None))
               == WalkTop(r, off, segmentData, segmentEnd,
                 Found(Known(infoOff), Known(tracksOff), Known(cuesOff), attachments))
        decreases segmentEnd - off
      {
        var header := ReadHeaderAt(r, off);
        if header.Err? {
          return infoOff, tracksOff, cuesOff, Some(header.error);
        }
        var h := header.value;
        HeaderBounds(r, off);
        if h.id == ID_CLUSTER {
          firstCluster := off;
          return infoOff, tracksOff, cuesOff, None;
        }
        if h.size == UNKNOWN_SIZE {
          return infoOff, tracksOff, cuesOff, Some(Unsupported);
        }
        if h.id == ID_INFO {
          infoOff := off;
        } else if h.id == ID_TRACKS {
          tracksOff := off;
        } else if h.id == ID_CUES {
          cuesOff := off;
        } else if h.id == ID_ATTACHMENTS {
          attachments := Some((off, h.headerLen + h.size));
        } else if h.id == ID_SEEK_HEAD {
          var b := ReadAt(r, off + h.headerLen, h.size);
          if b.Err? {
            return infoOff, tracksOff, cuesOff, Some(b.error);
          }
          var pos := FindSeek(b.value, ID_CUES);
          if pos.Some? && cuesOff < 0 {
            cuesOff := segmentData + pos.value;
          }
        }
        off := off + h.headerLen + h.size;
      }
      err := None;
    }

    /** The second half of Open: scans the top level and reads Info, Tracks and Cues. */
    method ReadMeta(r: Bytes) returns (err: Option<Error>)
      requires attachments == None && firstCluster == 0 && segmentData > 0 && size == |r|
      requires timestampScale == 1000000 && duration == [] && videoTrack == 0 && cues == []
      modifies `infoChildren, `timestampScale, `duration, `tracksChildren, `videoTrack, `cues, `attachments,
        `firstCluster
      ensures match MetaFrom(r, ebmlHeader, segmentData, segmentEnd)
              case Err(x) => err == Some(x)
              case Ok(m) => err == None && AsMeta() == m
    {
      hide WalkTop, ParseInfo, ParseTracks, ParseCues, ScaleOf, DurationOf;
      var infoOff, tracksOff, cuesOff, bad := Scan(r);
      if bad.Some? {
        return bad;
      }
      if firstCluster == 0 {
        return Some(Unsupported);
      }
      if infoOff < 0 || tracksOff < 0 {
        return Some(Unsupported);
      }
      if cuesOff < 0 {
        return Some(Unsupported);
      }
      bad := ReadInfo(r, infoOff);
      if bad.Some? {
        return bad;
      }
      bad := ReadTracks(r, tracksOff);
      if bad.Some? {
        return bad;
      }
      err := ReadCues(r, cuesOff);
    }

    /** collectClusters: the clusters from off up to the one that contains endT, as new objects. */
    method CollectFrom(r: Bytes, off: nat, endT: nat) returns (out: seq<SourceCluster>, err: Option<Error>)
      ensures match CollectClusters(r, off, segmentEnd, endT)
              case Err(x) => err == Some(x)
              case Ok(cs) => err == None && Values(out) == cs && out != []
      ensures AllFresh(out) && Distinct(out) && forall i :: 0 <= i < |out| ==> fresh(out[i])
    {
      hide ReadCluster, ReadHeaderAt;
      out := [];
      var p := off;
      while p < segmentEnd
        invariant AllFresh(out) && Distinct(out) && forall i :: 0 <= i < |out| ==> fresh(out[i])
        invariant Collect(r, off, segmentEnd, endT, []) == Collect(r, p, segmentEnd, endT, Values(out))
        decreases segmentEnd - p
      {
        HeaderBounds(r, p);
        ClusterEnd(r, p);
        var c, bad := LoadCluster(r, p);
        if bad.Some? {
          return out, bad;
        }
        if c == null {
          var h := ReadHeaderAt(r, p);
          if h.Err? || h.value.size == UNKNOWN_SIZE {
            break;
          }
          p := p + h.value.headerLen + h.value.size;
          continue;
        }
        if |out| > 0 && c.timestamp >= endT {
          break;
        }
        ValuesSnoc(out, c);
        out := out + [c];
        p := c.end;
      }
      if |out| == 0 {
        return out, Some(Malformed);
      }
      err := None;
    }

    /** sort.Search for the first cue later than t. */
    method SearchCues(t: nat) returns (k: nat)
      requires Sorted(cues)
      ensures k == FirstAfter(cues, t)
    {
      var i, j := 0, |cues|;
      while i < j
        invariant 0 <= i <= j <= |cues|
        invariant forall m :: 0 <= m < i ==> cues[m].time <= t
        invariant forall m :: j <= m < |cues| ==> cues[m].time > t
      {
        var h := (i + j) / 2;
        if !(cues[h].time > t) {
          i := h + 1;
        } else {
          j := h;
        }
      }
      k := i;
      FirstAfterIs(cues, t, k);
    }
  }

  lemma {:induction false} FirstAfterIs(cues: seq<CuePoint>, t: nat, k: nat)
    requires k <= |cues| && (forall m :: 0 <= m < k ==> cues[m].time <= t)
      && forall m :: k <= m < |cues| ==> cues[m].time > t
    ensures FirstAfter(cues, t) == k
  {
    if k > 0 { FirstAfterIs(cues[1..], t, k - 1); }
  }

  ghost function Values(cs: seq<SourceCluster>): seq<Cluster>
    reads cs
  {
    if cs == [] then [] else Values(cs[..|cs| - 1]) + [cs[|cs| - 1].source]
  }

  lemma ValuesSnoc(cs: seq<SourceCluster>, c: SourceCluster)
    ensures Values(cs + [c]) == Values(cs) + [c.source]
  {
    assert (cs + [c])[..|cs|] == cs;
  }

  ghost predicate AllFresh(cs: seq<SourceCluster>)
    reads cs
  {
    forall c :: c in cs ==> c.Fresh()
  }

  predicate Distinct(cs: seq<SourceCluster>) {
    forall i, j :: 0 <= i < j < |cs| ==> cs[i] != cs[j]
  }

  /** Open: a Source filled from the file, or the first error met. */
  method Open(r: Bytes) returns (res: Result<Source>)
    ensures match OpenMeta(r)
            case Err(x) => res == Err(x)
            case Ok(m) => res.Ok? && fresh(res.value) && res.value.AsMeta() == m
  {
    hide ReadHeaderAt, ReadAt, MetaFrom;
    var s := new Source(|r|);
    HeaderBounds(r, 0);
    var header := ReadHeaderAt(r, 0);
    if header.Err? {
      return Err(header.error);
    }
    var h := header.value;
    if h.id != ID_EBML || h.size == UNKNOWN_SIZE {
      return Err(Unsupported);
    }
    var b := ReadAt(r, 0, h.headerLen + h.size);
    if b.Err? {
      return Err(b.error);
    }
    s.ebmlHeader := b.value;
    var segOff := |s.ebmlHeader|;
    HeaderBounds(r, segOff);
    var segHeader := ReadHeaderAt(r, segOff);
    if segHeader.Err? {
      return Err(segHeader.error);
    }
    var seg := segHeader.value;
    if seg.id != ID_SEGMENT {
      return Err(Unsupported);
    }
    s.segmentData := segOff + seg.headerLen;
    s.segmentEnd := |r|;
    if seg.size != UNKNOWN_SIZE && s.segmentData + seg.size < |r| {
      s.segmentEnd := s.segmentData + seg.size;
    }
    var bad := s.ReadMeta(r);
    if bad.Some? {
      return Err(bad.value);
    }
    return Ok(s);
  }
}
