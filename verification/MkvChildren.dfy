/** What the reader takes from a list of child elements, said of the list alone: which child counts when there
    are several, and which children do not matter. */
module MkvChildren {
  import opened Basics
  import opened Ebml
  import opened Mkv
  import opened MkvBlocks

  // ---------------------------------------------------------------- the last child with an ID

  /** i is the place of the last child with the given ID. */
  predicate LastAt(es: seq<Element>, id: nat, i: nat) {
    i < |es| && es[i].id == id && forall j :: i < j < |es| ==> es[j].id != id
  }

  lemma {:induction false} LastDataExactly(es: seq<Element>, id: nat)
    ensures LastData(es, id) == None <==> Lacks(es, id)
    ensures forall i: nat :: LastAt(es, id, i) ==> LastData(es, id) == Some(es[i].data)
  {
    if es != [] {
      var n := |es| - 1;
      if es[n].id != id {
        LastDataExactly(es[..n], id);
        LacksInit(es, id);
        forall i: nat | LastAt(es, id, i)
          ensures LastAt(es[..n], id, i)
        {
        }
      }
    }
  }

  lemma LacksInit(es: seq<Element>, id: nat)
    requires es != [] && es[|es| - 1].id != id
    ensures Lacks(es, id) <==> Lacks(es[..|es| - 1], id)
  {
    if Lacks(es[..|es| - 1], id) {
      forall i | 0 <= i < |es|
        ensures es[i].id != id
      {
        if i < |es| - 1 { assert es[..|es| - 1][i] == es[i]; }
      }
    }
  }

  // ---------------------------------------------------------------- Info

  /** i is the place of the last TimestampScale that is not zero. */
  predicate ScaleAt(es: seq<Element>, i: nat) {
    && i < |es| && SetsScale(es[i])
    && forall j :: i < j < |es| ==> !SetsScale(es[j])
  }

  predicate SetsScale(e: Element) { e.id == ID_TIMESTAMP_SCALE && UintOr0(e.data) > 0 }

  /** The scale is the last nonzero one of the Info; a million without one. */
  lemma {:induction false} ScaleExactly(es: seq<Element>)
    ensures forall i: nat :: ScaleAt(es, i) ==> ScaleOf(es) == UintOr0(es[i].data)
    ensures (forall e :: e in es ==> !SetsScale(e)) ==> ScaleOf(es) == 1000000
  {
    hide UintOr0;
    if es != [] {
      var n := |es| - 1;
      InitLast(es);
      if !SetsScale(es[n]) {
        ScaleExactly(es[..n]);
        forall i: nat | ScaleAt(es, i)
          ensures ScaleAt(es[..n], i)
        {
        }
      }
    }
  }

  /** The elements of the source's Info that describe the file and not the clip (RFC 9559, section 5.1.2), and
      those that the clip has its own of. */
  const SEGMENT_UUID := 0x73A4
  const PREV_UUID := 0x3CB923
  const NEXT_UUID := 0x3EB923
  const PREV_FILENAME := 0x3C83AB
  const NEXT_FILENAME := 0x3E83BB
  const SEGMENT_FILENAME := 0x7384
  const DATE_UTC := 0x4461
  const CHAPTER_TRANSLATE := 0x6924

  predicate OfTheFile(id: nat) {
    || id == SEGMENT_UUID || id == PREV_UUID || id == NEXT_UUID || id == PREV_FILENAME || id == NEXT_FILENAME
    || id == SEGMENT_FILENAME || id == DATE_UTC || id == CHAPTER_TRANSLATE
  }

  predicate StaysInInfo(e: Element) {
    e.id != ID_CRC32 && e.id != ID_VOID && e.id != ID_DURATION && e.id != ID_TITLE && !OfTheFile(e.id)
  }

  predicate StaysInTracks(e: Element) { e.id != ID_CRC32 && e.id != ID_VOID }

  function Marked(es: seq<Element>, stays: Element -> bool): (s: seq<bool>)
    ensures |s| == |es|
  {
    seq(|es|, i requires 0 <= i < |es| => stays(es[i]))
  }

  /** The clip's Info is that of the source, in order, without what describes the file, and then the clip's
      duration and title: MuxingApp, WritingApp and the scale stay. */
  lemma {:induction false} InfoKept(m: Meta, duration: Bytes, title: Bytes)
    ensures NewInfo(m, duration, title) ==
      Pick(m.infoChildren, Marked(m.infoChildren, StaysInInfo))
      + [Encoded(ID_DURATION, duration), Encoded(ID_TITLE, title)]
  {
    KeptInfoExactly(m.infoChildren);
  }

  lemma {:induction false} KeptInfoExactly(es: seq<Element>)
    ensures KeptInfo(es) == Pick(es, Marked(es, StaysInInfo))
  {
    if es != [] {
      KeptInfoExactly(es[1..]);
      assert Marked(es, StaysInInfo)[1..] == Marked(es[1..], StaysInInfo);
    }
  }

  /** Every track stays, of whatever kind, with all it says. */
  lemma {:induction false} TracksKept(es: seq<Element>)
    ensures KeptTracks(es) == Pick(es, Marked(es, StaysInTracks))
    ensures forall e :: e in es && e.id == ID_TRACK_ENTRY ==> e in KeptTracks(es)
  {
    if es != [] {
      TracksKept(es[1..]);
      assert Marked(es, StaysInTracks)[1..] == Marked(es[1..], StaysInTracks);
    }
  }

  // ---------------------------------------------------------------- Tracks

  /** The number of a video track; 0 for other elements and tracks. */
  function VideoNumber(e: Element): nat {
    if e.id != ID_TRACK_ENTRY then 0 else
    match Elements(e.data)
    case Err(_) => 0
    case Ok(kids) => if LastUint(kids, ID_TRACK_TYPE) == 1 then LastUint(kids, ID_TRACK_NUMBER) else 0
  }

  predicate Readable(e: Element, id: nat) { e.id == id ==> Elements(e.data).Ok? }

  predicate AllReadable(es: seq<Element>, id: nat) { forall e :: e in es ==> Readable(e, id) }

  predicate FirstVideo(es: seq<Element>, i: nat) {
    i < |es| && VideoNumber(es[i]) > 0 && forall j :: 0 <= j < i ==> VideoNumber(es[j]) == 0
  }

  /** The video track is the first with a number; tracks that cannot be read fail the whole. */
  lemma {:induction false} VideoExactly(es: seq<Element>)
    ensures VideoIn(es, 0).Ok? <==> AllReadable(es, ID_TRACK_ENTRY)
    ensures AllReadable(es, ID_TRACK_ENTRY) ==>
      && ((forall e :: e in es ==> VideoNumber(e) == 0) ==> VideoIn(es, 0) == Ok(0))
      && forall i: nat :: FirstVideo(es, i) ==> VideoIn(es, 0) == Ok(VideoNumber(es[i]))
  {
    hide VideoNumber, Readable;
    if es != [] {
      VideoExactly(es[1..]);
      VideoOnwards(es[1..], VideoNumber(es[0]));
      VideoHere(es, 0);
      AllReadableCons(es, ID_TRACK_ENTRY);
      if AllReadable(es, ID_TRACK_ENTRY) {
        forall i: nat | FirstVideo(es, i)
          ensures VideoIn(es, 0) == Ok(VideoNumber(es[i]))
        {
          if i > 0 { assert FirstVideo(es[1..], i - 1); }
        }
      }
    }
  }

  lemma AllReadableCons(es: seq<Element>, id: nat)
    requires es != []
    ensures AllReadable(es, id) <==> Readable(es[0], id) && AllReadable(es[1..], id)
  {
    hide Readable;
    assert es == [es[0]] + es[1..];
  }

  lemma VideoHere(es: seq<Element>, found: nat)
    requires es != []
    ensures Readable(es[0], ID_TRACK_ENTRY) ==>
      VideoIn(es, found) == VideoIn(es[1..], if found == 0 then VideoNumber(es[0]) else found)
    ensures !Readable(es[0], ID_TRACK_ENTRY) ==> VideoIn(es, found).Err?
  {
    hide Elements, LastUint, LastData;
  }

  /** Once found the number stays. */
  lemma {:induction false} VideoOnwards(es: seq<Element>, found: nat)
    ensures VideoIn(es, found).Ok? <==> AllReadable(es, ID_TRACK_ENTRY)
    ensures found > 0 && AllReadable(es, ID_TRACK_ENTRY) ==> VideoIn(es, found) == Ok(found)
  {
    hide VideoNumber, Readable;
    if es != [] {
      VideoHere(es, found);
      AllReadableCons(es, ID_TRACK_ENTRY);
      VideoOnwards(es[1..], if found == 0 then VideoNumber(es[0]) else found);
    }
  }

  // ---------------------------------------------------------------- the SeekHead

  /** The position a Seek entry gives for the wanted ID, when it can be used. */
  function SeekOf(e: Element, want: nat): Option<nat> {
    if e.id != ID_SEEK then None else
    match Elements(e.data)
    case Err(_) => None
    case Ok(kids) =>
      if LastUint(kids, ID_SEEK_ID) % TWO32 == want && LastData(kids, ID_SEEK_POSITION).Some?
         && LastUint(kids, ID_SEEK_POSITION) < TWO62 - 1
      then Some(LastUint(kids, ID_SEEK_POSITION)) else None
  }

  /** i is the place of the first usable entry for the wanted ID. */
  predicate FirstSeek(es: seq<Element>, want: nat, i: nat) {
    i < |es| && SeekOf(es[i], want).Some? && forall j :: 0 <= j < i ==> SeekOf(es[j], want) == None
  }

  /** The first usable entry counts; others, for other IDs or unreadable, do not matter. */
  lemma {:induction false} SeekExactly(es: seq<Element>, want: nat)
    ensures SeekIn(es, want) == None <==> forall e :: e in es ==> SeekOf(e, want) == None
    ensures forall i: nat :: FirstSeek(es, want, i) ==> SeekIn(es, want) == SeekOf(es[i], want)
  {
    hide SeekOf;
    if es != [] {
      SeekExactly(es[1..], want);
      SeekHere(es, want);
      assert es == [es[0]] + es[1..];
      forall i: nat | FirstSeek(es, want, i) && i > 0
        ensures FirstSeek(es[1..], want, i - 1)
      {
      }
    }
  }

  lemma SeekHere(es: seq<Element>, want: nat)
    requires es != []
    ensures SeekIn(es, want) == if SeekOf(es[0], want).Some? then SeekOf(es[0], want) else SeekIn(es[1..], want)
  {
    hide Elements, LastUint, LastData;
  }

  // ---------------------------------------------------------------- the Cues

  /** The children of e, when they can be read. */
  function KidsOf(e: Element): seq<Element> {
    match Elements(e.data)
    case Ok(kids) => kids
    case Err(_) => []
  }

  /** e is a CueTrackPositions that names the video track and a place inside the file. */
  predicate Points(e: Element, video: nat, size: nat) {
    && e.id == ID_CUE_TRACK_POSITIONS && LastUint(KidsOf(e), ID_CUE_TRACK) == video
    && LastData(KidsOf(e), ID_CUE_CLUSTER_POSITION).Some? && LastUint(KidsOf(e), ID_CUE_CLUSTER_POSITION) < size
  }

  /** c is time t at the place position e names. */
  predicate CueAt(e: Element, t: nat, video: nat, segmentData: nat, size: nat, c: CuePoint) {
    Points(e, video, size) && c == CuePoint(t, segmentData + LastUint(KidsOf(e), ID_CUE_CLUSTER_POSITION))
  }

  /** c is what CuePoint p says by one of its positions. */
  predicate Says(p: Element, video: nat, segmentData: nat, size: nat, c: CuePoint) {
    && p.id == ID_CUE_POINT
    && exists e :: e in KidsOf(p) && CueAt(e, LastUint(KidsOf(p), ID_CUE_TIME), video, segmentData, size, c)
  }

  predicate PointReadable(p: Element) {
    Readable(p, ID_CUE_POINT) && (p.id == ID_CUE_POINT ==> AllReadable(KidsOf(p), ID_CUE_TRACK_POSITIONS))
  }

  lemma PositionsHere(kids: seq<Element>, t: nat, video: nat, segmentData: nat, size: nat)
    requires kids != []
    ensures var rest := PositionsIn(kids[1..], t, video, segmentData, size);
      PositionsIn(kids, t, video, segmentData, size) ==
        if !Readable(kids[0], ID_CUE_TRACK_POSITIONS) then Err(Elements(kids[0].data).error)
        else if rest.Err? then rest
        else if Points(kids[0], video, size) then
          Ok([CuePoint(t, segmentData + LastUint(KidsOf(kids[0]), ID_CUE_CLUSTER_POSITION))] + rest.value)
        else rest
  {
    hide Elements, LastUint, LastData;
  }

  lemma PositionsMore(kids: seq<Element>, t: nat, video: nat, segmentData: nat, size: nat)
    requires kids != []
    ensures var rest := PositionsIn(kids[1..], t, video, segmentData, size);
      var all := PositionsIn(kids, t, video, segmentData, size);
      && (all.Ok? <==> Readable(kids[0], ID_CUE_TRACK_POSITIONS) && rest.Ok?)
      && (all.Ok? ==> forall c :: c in all.value <==> CueAt(kids[0], t, video, segmentData, size, c) || c in rest.value)
  {
    hide Points, Readable, LastUint, KidsOf, PositionsIn;
    PositionsHere(kids, t, video, segmentData, size);
  }

  lemma {:induction false} PositionsExactly(kids: seq<Element>, t: nat, video: nat, segmentData: nat, size: nat)
    ensures var found := PositionsIn(kids, t, video, segmentData, size);
      && (found.Ok? <==> AllReadable(kids, ID_CUE_TRACK_POSITIONS))
      && (found.Ok? ==>
            forall c :: c in found.value <==> exists e :: e in kids && CueAt(e, t, video, segmentData, size, c))
  {
    hide CueAt, Readable;
    if kids != [] {
      PositionsExactly(kids[1..], t, video, segmentData, size);
      PositionsMore(kids, t, video, segmentData, size);
      AllReadableCons(kids, ID_CUE_TRACK_POSITIONS);
      if PositionsIn(kids, t, video, segmentData, size).Ok? {
        forall c
          ensures (exists e :: e in kids && CueAt(e, t, video, segmentData, size, c)) <==>
            CueAt(kids[0], t, video, segmentData, size, c)
            || exists e :: e in kids[1..] && CueAt(e, t, video, segmentData, size, c)
        {
          assert kids == [kids[0]] + kids[1..];
        }
      }
    }
  }

  lemma CuesHere(points: seq<Element>, video: nat, segmentData: nat, size: nat)
    requires points != []
    ensures var p := points[0]; var rest := CuesIn(points[1..], video, segmentData, size);
      var here := PositionsIn(KidsOf(p), LastUint(KidsOf(p), ID_CUE_TIME), video, segmentData, size);
      if p.id != ID_CUE_POINT then CuesIn(points, video, segmentData, size) == rest
      else if !Readable(p, ID_CUE_POINT) || here.Err? || rest.Err? then CuesIn(points, video, segmentData, size).Err?
      else CuesIn(points, video, segmentData, size) == Ok(here.value + rest.value)
  {
    hide Elements, LastUint, PositionsIn;
  }

  lemma PointExactly(p: Element, video: nat, segmentData: nat, size: nat)
    requires p.id == ID_CUE_POINT
    ensures var here := PositionsIn(KidsOf(p), LastUint(KidsOf(p), ID_CUE_TIME), video, segmentData, size);
      && (PointReadable(p) <==> Readable(p, ID_CUE_POINT) && here.Ok?)
      && (here.Ok? ==> forall c :: c in here.value <==> Says(p, video, segmentData, size, c))
  {
    hide Elements, LastUint, PositionsIn, CueAt, AllReadable, KidsOf;
    PositionsExactly(KidsOf(p), LastUint(KidsOf(p), ID_CUE_TIME), video, segmentData, size);
  }

  lemma OtherPoint(p: Element, video: nat, segmentData: nat, size: nat)
    requires p.id != ID_CUE_POINT
    ensures PointReadable(p) && forall c :: !Says(p, video, segmentData, size, c)
  {
  }

  /** The cue points are exactly what the CuePoints say of the video track, by all their positions; other
      elements do not matter, and one that cannot be read fails the whole. */
  lemma {:induction false} CuesRead(points: seq<Element>, video: nat, segmentData: nat, size: nat)
    ensures var cues := CuesIn(points, video, segmentData, size);
      && (cues.Ok? <==> forall p :: p in points ==> PointReadable(p))
      && (cues.Ok? ==>
            forall c :: c in cues.value <==> exists p :: p in points && Says(p, video, segmentData, size, c))
  {
    hide CuesIn, PositionsIn, LastUint, Says, PointReadable, Readable, KidsOf;
    if points == [] {
      NoCues(video, segmentData, size);
    } else {
      var p := points[0];
      CuesRead(points[1..], video, segmentData, size);
      CuesHere(points, video, segmentData, size);
      if p.id == ID_CUE_POINT {
        PointExactly(p, video, segmentData, size);
      } else {
        OtherPoint(p, video, segmentData, size);
      }
      assert points == [p] + points[1..];
    }
  }

  lemma NoCues(video: nat, segmentData: nat, size: nat)
    ensures CuesIn([], video, segmentData, size) == Ok([])
  {
  }

  // ---------------------------------------------------------------- the blocks of a cluster

  predicate IsBlock(e: Element) { e.id == ID_SIMPLE_BLOCK || e.id == ID_BLOCK_GROUP }

  /** A block's payload starts with a track number and holds a time and flags behind it. */
  predicate WellMade(e: Element)
    requires |e.data| <= |e.raw|
  {
    && BlockData(e).Ok? && DecodeSize(BlockData(e).value.1).Ok?
    && |BlockData(e).value.1| >= DecodeSize(BlockData(e).value.1).value.1 + 3
  }

  /** e does not keep a cluster from being read. */
  predicate Passable(e: Element)
    requires |e.data| <= |e.raw|
  {
    e.id != ID_ENCRYPTED_BLOCK && (IsBlock(e) ==> WellMade(e))
  }

  lemma ParsedExactly(e: Element, off: nat, ts: nat)
    requires |e.data| <= |e.raw|
    ensures ParseBlock(e, off, ts).Ok? <==> Passable(e)
    ensures Passable(e) ==> (ParseBlock(e, off, ts).value.Some? <==> IsBlock(e))
  {
    hide BlockData, DecodeSize, BeVal, I16, I64, U64;
    if e.id != ID_ENCRYPTED_BLOCK && IsBlock(e) && WellMade(e) {
      var data, tl := BlockData(e).value.1, DecodeSize(BlockData(e).value.1).value.1;
      TwoBytes(data[tl..tl + 2]);
    }
  }

  /** b is the block that child i is, where it stands. */
  predicate BlockIs(kids: seq<Element>, off: nat, ts: nat, i: nat, b: Block)
    requires Sane(kids)
  {
    && i < |kids| && IsBlock(kids[i])
    && ParseBlock(kids[i], off + |Flat(kids[..i])|, ts) == Ok(Some(b))
  }

  /** The children at the places `at` are the blocks among kids, in order; block j is the one at at[j]. */
  predicate BlocksAt(kids: seq<Element>, off: nat, ts: nat, at: seq<nat>, bs: seq<Block>)
    requires Sane(kids)
  {
    && |bs| == |at|
    && (forall j :: 0 <= j < |at| ==> BlockIs(kids, off, ts, at[j], bs[j]))
    && (forall j, k :: 0 <= j < k < |at| ==> at[j] < at[k])
    && forall i :: 0 <= i < |kids| && IsBlock(kids[i]) ==> i in at
  }

  function Next(at: seq<nat>): (next: seq<nat>)
    ensures |next| == |at| && forall j :: 0 <= j < |at| ==> next[j] == at[j] + 1
  {
    seq(|at|, j requires 0 <= j < |at| => at[j] + 1)
  }

  lemma BlockIsNext(kids: seq<Element>, off: nat, ts: nat, i: nat, b: Block)
    requires kids != [] && Sane(kids) && Sane(kids[1..]) && BlockIs(kids[1..], off + |kids[0].raw|, ts, i, b)
    ensures BlockIs(kids, off, ts, i + 1, b)
  {
    hide ParseBlock, IsBlock;
    assert kids[..i + 1][1..] == kids[1..][..i];
  }

  lemma FirstBlockIs(kids: seq<Element>, off: nat, ts: nat, b: Block)
    requires kids != [] && Sane(kids) && IsBlock(kids[0]) && ParseBlock(kids[0], off, ts) == Ok(Some(b))
    ensures BlockIs(kids, off, ts, 0, b)
  {
    hide ParseBlock, IsBlock;
    assert kids[..0] == [];
  }

  lemma BlocksNext(kids: seq<Element>, off: nat, ts: nat, at: seq<nat>, bs: seq<Block>, b: Option<Block>)
    requires kids != [] && Sane(kids) && Sane(kids[1..])
    requires BlocksAt(kids[1..], off + |kids[0].raw|, ts, at, bs) && ParseBlock(kids[0], off, ts) == Ok(b)
    requires b.Some? <==> IsBlock(kids[0])
    ensures BlocksAt(kids, off, ts, (if b.Some? then [0] else []) + Next(at), (if b.Some? then [b.value] else []) + bs)
  {
    hide ParseBlock, IsBlock, BlockIs, Sane;
    var all, blocks := (if b.Some? then [0] else []) + Next(at), (if b.Some? then [b.value] else []) + bs;
    var k := if b.Some? then 1 else 0;
    if b.Some? { FirstBlockIs(kids, off, ts, b.value); }
    forall j | 0 <= j < |all|
      ensures BlockIs(kids, off, ts, all[j], blocks[j])
    {
      if j >= k { BlockIsNext(kids, off, ts, at[j - k], bs[j - k]); }
    }
    forall i | 0 <= i < |kids| && IsBlock(kids[i])
      ensures i in all
    {
      if i > 0 {
        assert IsBlock(kids[1..][i - 1]);
        var j :| 0 <= j < |at| && at[j] == i - 1;
        assert all[j + k] == i;
      } else {
        assert all[0] == 0;
      }
    }
  }

  /** A cluster's blocks are its SimpleBlocks and BlockGroups, in order and where they stand; other elements do not
      matter, but an EncryptedBlock or a malformed block fails the whole. */
  lemma {:induction false} BlocksExactly(kids: seq<Element>, off: nat, ts: nat) returns (at: seq<nat>)
    requires Sane(kids)
    ensures BlocksIn(kids, off, ts).Ok? <==> forall i :: 0 <= i < |kids| ==> Passable(kids[i])
    ensures BlocksIn(kids, off, ts).Ok? ==> BlocksAt(kids, off, ts, at, BlocksIn(kids, off, ts).value)
    decreases |kids|
  {
    hide ParseBlock, Passable, BlocksAt;
    at := [];
    if kids == [] {
      NoBlocksAt(off, ts);
    } else {
      ParsedExactly(kids[0], off, ts);
      var rest := BlocksExactly(kids[1..], off + |kids[0].raw|, ts);
      if forall i :: 0 <= i < |kids| ==> Passable(kids[i]) {
        assert forall i :: 0 <= i < |kids| - 1 ==> Passable(kids[1..][i]);
      } else if Passable(kids[0]) {
        var i :| 0 <= i < |kids| && !Passable(kids[i]);
        assert !Passable(kids[1..][i - 1]);
      }
      if BlocksIn(kids, off, ts).Ok? {
        var b := ParseBlock(kids[0], off, ts).value;
        BlocksNext(kids, off, ts, rest, BlocksIn(kids[1..], off + |kids[0].raw|, ts).value, b);
        at := (if b.Some? then [0] else []) + Next(rest);
      }
    }
  }

  lemma NoBlocksAt(off: nat, ts: nat)
    ensures BlocksAt([], off, ts, [], [])
  {
  }
}
