/** What the reader makes of any file, said of the elements that stand in it: which ones it uses, and that it steps
    over all others. */
module MkvFiles {
  import opened Basics
  import opened Ebml
  import opened Mkv
  import opened MkvBlocks
  import opened MkvChildren
  import opened MkvCluster
  import opened MkvPlan
  import opened MkvMeta

  lemma ElementLength(e: Element)
    requires IsElement(e)
    ensures 2 <= |e.raw| - |e.data| <= |e.raw|
  {
    ParsedHeader(e.raw);
  }

  lemma FlatCons(r: Bytes, off: nat, es: seq<Element>)
    requires es != [] && AllElements(es) && At(r, off, Flat(es))
    ensures IsElement(es[0]) && AllElements(es[1..]) && At(r, off, es[0].raw) && At(r, off + |es[0].raw|, Flat(es[1..]))
    ensures |Flat(es)| == |es[0].raw| + |Flat(es[1..])| && 2 <= |es[0].raw| - |es[0].data|
    ensures ReadHeaderAt(r, off) == Ok(Header(es[0].id, |es[0].data|, |es[0].raw| - |es[0].data|))
  {
    hide ReadHeaderAt, IsElement, At;
    AtSplit(r, off, es[0].raw, Flat(es[1..]));
    ElementAt(r, off, es[0]);
    ElementLength(es[0]);
  }

  // ---------------------------------------------------------------- a cluster's head

  /** Children that may stand in front of a cluster's blocks. */
  predicate InFront(kids: seq<Element>) {
    && AllElements(kids)
    && forall e :: e in kids ==>
         && !IsBlock(e) && e.id != ID_ENCRYPTED_BLOCK
         && (e.id == ID_TIMESTAMP ==> |e.data| <= MAX_ELEMENT)
  }

  predicate LongTimestamp(h: Header) { h.id == ID_TIMESTAMP && h.size > MAX_ELEMENT }

  /** The timestamp after kids, when it was ts before them. */
  function TimeAfter(kids: seq<Element>, ts: Option<nat>): Option<nat> {
    if LastData(kids, ID_TIMESTAMP).Some? then Some(LastUint(kids, ID_TIMESTAMP)) else ts
  }

  lemma {:induction false} LastDataCons(es: seq<Element>, id: nat)
    requires es != []
    ensures LastData(es, id) ==
      if LastData(es[1..], id).Some? then LastData(es[1..], id)
      else if es[0].id == id then Some(es[0].data) else None
  {
    var n := |es| - 1;
    if n > 0 && es[n].id != id {
      LastDataCons(es[..n], id);
      assert es[..n][1..] == es[1..][..n - 1];
    }
  }

  lemma OneChild(r: Bytes, off: nat, p: nat, end: nat, e: Element, ts: Option<nat>)
    requires At(r, p, e.raw) && IsElement(e) && InFront([e]) && p + |e.raw| <= end
    requires ReadHeaderAt(r, p) == Ok(Header(e.id, |e.data|, |e.raw| - |e.data|)) && 2 <= |e.raw| - |e.data|
    ensures ClusterFrom(r, off, p, end, ts) ==
      ClusterFrom(r, off, p + |e.raw|, end, if e.id == ID_TIMESTAMP then Some(UintOr0(e.data)) else ts)
  {
    hide ReadHeaderAt, UintOr0, ParseHeader;
    assert e in [e];
    if e.id == ID_TIMESTAMP {
      ElementTail(e);
      var h := |e.raw| - |e.data|;
      SubSlice(r, p, p + |e.raw|, h, |e.raw|);
      assert ReadAt(r, p + h, |e.data|) == Ok(e.data);
    }
  }

  /** CRC-32, Position, PrevSize, Void and whatever else stands in front of the blocks is stepped over; of several
      Timestamps the last one counts. */
  lemma {:induction false} ChildrenPassed(r: Bytes, off: nat, p: nat, end: nat, kids: seq<Element>, ts: Option<nat>)
    requires At(r, p, Flat(kids)) && InFront(kids) && p + |Flat(kids)| <= end
    ensures ClusterFrom(r, off, p, end, ts) == ClusterFrom(r, off, p + |Flat(kids)|, end, TimeAfter(kids, ts))
    decreases |kids|
  {
    hide ClusterFrom, ReadHeaderAt, UintOr0, IsElement, At;
    if kids != [] {
      FlatCons(r, p, kids);
      LastDataCons(kids, ID_TIMESTAMP);
      assert kids == [kids[0]] + kids[1..];
      OneChild(r, off, p, end, kids[0], ts);
      ChildrenPassed(r, off, p + |kids[0].raw|, end, kids[1..],
        if kids[0].id == ID_TIMESTAMP then Some(UintOr0(kids[0].data)) else ts);
    }
  }

  /** What readCluster makes of a cluster whose payload starts with kids, by what stands behind them. */
  lemma ClusterRead(r: Bytes, off: nat, h: Header, kids: seq<Element>)
    requires ReadHeaderAt(r, off) == Ok(h) && h.id == ID_CLUSTER && h.size >= 0
    requires At(r, off + h.headerLen, Flat(kids)) && InFront(kids) && |Flat(kids)| <= h.size
    ensures var q, end := off + h.headerLen + |Flat(kids)|, off + h.headerLen + h.size;
      var ts := LastUint(kids, ID_TIMESTAMP);
      if q == end then ReadCluster(r, off) == Ok(Some(Cluster(off, end, end, ts)))
      else if ReadHeaderAt(r, q).Err? then ReadCluster(r, off) == Err(ReadHeaderAt(r, q).error)
      else
        var b := ReadHeaderAt(r, q).value;
        && (b.size == UNKNOWN_SIZE || b.id == ID_ENCRYPTED_BLOCK || LongTimestamp(b) ==>
              ReadCluster(r, off) == Err(Unsupported))
        && (b.size >= 0 && (b.id == ID_SIMPLE_BLOCK || b.id == ID_BLOCK_GROUP) ==>
              ReadCluster(r, off) ==
                if Lacks(kids, ID_TIMESTAMP) then Err(Unsupported) else Ok(Some(Cluster(off, end, q, ts))))
  {
    hide ClusterFrom, ReadHeaderAt, UintOr0, At, InFront;
    var p, end := off + h.headerLen, off + h.headerLen + h.size;
    HeaderBounds(r, off);
    ChildrenPassed(r, off, p, end, kids, None);
    LastDataExactly(kids, ID_TIMESTAMP);
    ClusterHead(r, off, h);
    var q := p + |Flat(kids)|;
    if q == end {
      ClusterEmpty(r, off, q, end, TimeAfter(kids, None));
    } else {
      HeadEnds(r, off, q, end, TimeAfter(kids, None));
    }
  }

  lemma ClusterHead(r: Bytes, off: nat, h: Header)
    requires ReadHeaderAt(r, off) == Ok(h) && h.id == ID_CLUSTER && h.size >= 0
    ensures ReadCluster(r, off) ==
      match ClusterFrom(r, off, off + h.headerLen, off + h.headerLen + h.size, None)
      case Ok(c) => Ok(Some(c))
      case Err(x) => Err(x)
  {
    hide ReadHeaderAt, ClusterFrom;
    HeaderBounds(r, off);
  }

  lemma HeadEnds(r: Bytes, off: nat, q: nat, end: nat, ts: Option<nat>)
    requires q < end
    ensures var c := ClusterFrom(r, off, q, end, ts);
      if ReadHeaderAt(r, q).Err? then c == Err(ReadHeaderAt(r, q).error)
      else
        var b := ReadHeaderAt(r, q).value;
        && (b.size == UNKNOWN_SIZE || b.id == ID_ENCRYPTED_BLOCK || LongTimestamp(b) ==> c == Err(Unsupported))
        && (b.size >= 0 && (b.id == ID_SIMPLE_BLOCK || b.id == ID_BLOCK_GROUP) ==>
              c == if ts.None? then Err(Unsupported) else Ok(Cluster(off, end, q, ts.value)))
  {
    hide ReadHeaderAt;
    HeaderBounds(r, q);
  }

  /** kids are what stands from c's first block to its end. */
  predicate Holds(r: Bytes, c: Cluster, kids: seq<Element>) {
    AllElements(kids) && Sane(kids) && At(r, c.blocksOff, Flat(kids)) && c.blocksOff + |Flat(kids)| == c.end
  }

  /** The blocks of a cluster can be read exactly when they are within the reader's bound and none is encrypted or
      malformed; they are then the ones that stand there. */
  lemma BlocksRead(r: Bytes, c: Cluster, kids: seq<Element>) returns (at: seq<nat>)
    requires Holds(r, c, kids)
    ensures ReadBlocks(r, c).Ok? <==> |Flat(kids)| <= MAX_ELEMENT && forall i :: 0 <= i < |kids| ==> Passable(kids[i])
    ensures ReadBlocks(r, c).Ok? ==> BlocksAt(kids, c.blocksOff, c.timestamp, at, ReadBlocks(r, c).value)
  {
    hide At, Elements, BlocksIn, BlocksAt, Passable, IsElement;
    at := BlocksExactly(kids, c.blocksOff, c.timestamp);
    if |Flat(kids)| <= MAX_ELEMENT { BlocksFound(r, c, kids); }
  }

  /** And only well-formed elements can be read. */
  lemma BlocksHeld(r: Bytes, c: Cluster) returns (kids: seq<Element>)
    requires ReadBlocks(r, c).Ok? && c.blocksOff <= |r|
    ensures Holds(r, c, kids)
  {
    hide Elements, BlocksIn, ParseHeader, Flat;
    var body := ReadAt(r, c.blocksOff, c.end - c.blocksOff).value;
    ElementsTile(body);
    kids := Elements(body).value;
  }

  // ---------------------------------------------------------------- collecting clusters

  /** Cues, Tags, Void and whatever else stands between clusters is stepped over. */
  lemma {:induction false} NextSkips(r: Bytes, off: nat, es: seq<Element>, segmentEnd: nat)
    requires At(r, off, Flat(es)) && AllElements(es) && Lacks(es, ID_CLUSTER) && off + |Flat(es)| <= segmentEnd
    ensures NextCluster(r, off, segmentEnd) == NextCluster(r, off + |Flat(es)|, segmentEnd)
    decreases |es|
  {
    hide ReadHeaderAt, IsElement, At, ReadCluster;
    if es != [] {
      FlatCons(r, off, es);
      NotACluster(r, off);
      NextSkips(r, off + |es[0].raw|, es[1..], segmentEnd);
    }
  }

  lemma NotACluster(r: Bytes, off: nat)
    requires ReadHeaderAt(r, off).Ok? && ReadHeaderAt(r, off).value.id != ID_CLUSTER
    ensures ReadCluster(r, off) == Ok(None)
  {
    hide ReadHeaderAt, ClusterFrom;
  }

  /** The next cluster behind the elements es: the one that stands there; none at the end of the Segment or in
      front of an element of unknown size; an error when nothing can be read there. */
  lemma NextExactly(r: Bytes, off: nat, es: seq<Element>, segmentEnd: nat)
    requires At(r, off, Flat(es)) && AllElements(es) && Lacks(es, ID_CLUSTER) && off + |Flat(es)| <= segmentEnd
    ensures var q := off + |Flat(es)|; var h := ReadHeaderAt(r, q); var next := NextCluster(r, off, segmentEnd);
      if q == segmentEnd then next == Ok(None)
      else if h.Err? then next == Err(h.error)
      else if h.value.id == ID_CLUSTER then next == ReadCluster(r, q)
      else h.value.size == UNKNOWN_SIZE ==> next == Ok(None)
  {
    hide ReadHeaderAt, ClusterFrom, At;
    NextSkips(r, off, es, segmentEnd);
  }

  lemma {:induction false} ChainCollected(r: Bytes, off: nat, segmentEnd: nat, endT: nat, got: seq<Cluster>,
          cs: seq<Cluster>)
    requires Chain(r, off, segmentEnd, endT, got == [], cs)
    ensures Collect(r, off, segmentEnd, endT, got) == Ok(got + cs)
    decreases segmentEnd - off
  {
    hide ReadCluster, ReadHeaderAt;
    if cs == [] { assert got + cs == got; }
    if off < segmentEnd {
      HeaderBounds(r, off);
      ClusterHeader(r, off);
      if ReadCluster(r, off).value.None? {
        var h := ReadHeaderAt(r, off).value;
        if h.size != UNKNOWN_SIZE {
          ChainOnward(r, off, segmentEnd, endT, got == [], cs);
          ChainCollected(r, off + h.headerLen + h.size, segmentEnd, endT, got, cs);
        }
      } else if cs != [] {
        ClusterEnd(r, off);
        ChainCollected(r, cs[0].end, segmentEnd, endT, got + [cs[0]], cs[1..]);
        assert got + [cs[0]] + cs[1..] == got + cs;
      }
    }
  }

  lemma ChainOnward(r: Bytes, off: nat, segmentEnd: nat, endT: nat, first: bool, cs: seq<Cluster>)
    requires off < segmentEnd && ReadCluster(r, off) == Ok(None)
    requires ReadHeaderAt(r, off).Ok? && ReadHeaderAt(r, off).value.size >= 0
    requires ReadHeaderAt(r, off).value.headerLen > 0 && Chain(r, off, segmentEnd, endT, first, cs)
    ensures var h := ReadHeaderAt(r, off).value; Chain(r, off + h.headerLen + h.size, segmentEnd, endT, first, cs)
  {
    hide ReadCluster, ReadHeaderAt;
  }

  /** collectClusters gives cs exactly when they are the chain of clusters from off on, and not empty. */
  lemma CollectExactly(r: Bytes, off: nat, segmentEnd: nat, endT: nat, cs: seq<Cluster>)
    ensures CollectClusters(r, off, segmentEnd, endT) == Ok(cs) <==>
      cs != [] && Chain(r, off, segmentEnd, endT, true, cs)
  {
    hide Collect, Chain;
    if CollectClusters(r, off, segmentEnd, endT) == Ok(cs) {
      CollectIsChain(r, off, segmentEnd, endT, []);
      assert cs[0..] == cs;
    }
    if cs != [] && Chain(r, off, segmentEnd, endT, true, cs) {
      ChainCollected(r, off, segmentEnd, endT, [], cs);
      assert [] + cs == cs;
    }
  }

  // ---------------------------------------------------------------- the top level

  const NOTHING_FOUND := Found(None, None, None, None)

  /** Elements that may stand in front of the first cluster, of whatever IDs. */
  predicate Top(es: seq<Element>) {
    && AllElements(es) && Lacks(es, ID_CLUSTER)
    && forall e :: e in es && e.id == ID_SEEK_HEAD ==> |e.data| <= MAX_ELEMENT
  }

  /** Where element i of es stands. */
  function PlaceIn(es: seq<Element>, off: nat, i: nat): nat
    requires i <= |es|
  {
    off + |Flat(es[..i])|
  }

  /** at is the place of the last element with the given ID. */
  ghost predicate LastStands(es: seq<Element>, off: nat, id: nat, at: Option<nat>) {
    match at
    case Some(p) => exists i: nat :: LastAt(es, id, i) && p == PlaceIn(es, off, i)
    case None => Lacks(es, id)
  }

  ghost predicate LastSpans(es: seq<Element>, off: nat, id: nat, span: Option<(nat, nat)>) {
    match span
    case Some(s) => exists i: nat :: LastAt(es, id, i) && s == (PlaceIn(es, off, i), |es[i].raw|)
    case None => Lacks(es, id)
  }

  /** What a SeekHead says of the Cues. */
  function Listed(e: Element): Option<nat> {
    if e.id == ID_SEEK_HEAD then SeekPosition(e.data, ID_CUES) else None
  }

  predicate FirstListed(es: seq<Element>, start: nat, at: Option<nat>) {
    match at
    case Some(p) =>
      exists i: nat :: i < |es| && Listed(es[i]).Some? && p == start + Listed(es[i]).value
                       && forall j :: 0 <= j < i ==> Listed(es[j]) == None
    case None => forall e :: e in es ==> Listed(e) == None
  }

  /** The Cues are the last element of that ID; without one, where the first SeekHead that lists them says. */
  ghost predicate CuesStand(es: seq<Element>, off: nat, start: nat, at: Option<nat>) {
    if Lacks(es, ID_CUES) then FirstListed(es, start, at) else LastStands(es, off, ID_CUES, at)
  }

  /** What the walk should find: of each kind the last element, whatever else there is. */
  ghost predicate Finds(es: seq<Element>, off: nat, start: nat, f: Found) {
    && LastStands(es, off, ID_INFO, f.info) && LastStands(es, off, ID_TRACKS, f.tracks)
    && LastSpans(es, off, ID_ATTACHMENTS, f.attachments) && CuesStand(es, off, start, f.cues)
  }

  lemma LacksSnoc(es: seq<Element>, e: Element, id: nat)
    ensures Lacks(es + [e], id) <==> Lacks(es, id) && e.id != id
  {
    assert (es + [e])[|es|] == e;
    assert forall i :: 0 <= i < |es| ==> (es + [e])[i] == es[i];
  }

  lemma LastSnoc(es: seq<Element>, e: Element, off: nat, id: nat, i: nat)
    requires LastAt(es, id, i) && e.id != id
    ensures LastAt(es + [e], id, i) && PlaceIn(es + [e], off, i) == PlaceIn(es, off, i) && (es + [e])[i] == es[i]
  {
    assert (es + [e])[..i] == es[..i];
  }

  lemma NewLast(es: seq<Element>, e: Element, off: nat)
    ensures LastAt(es + [e], e.id, |es|) && PlaceIn(es + [e], off, |es|) == off + |Flat(es)| && (es + [e])[|es|] == e
  {
    assert (es + [e])[..|es|] == es;
  }

  lemma StandsSnoc(es: seq<Element>, e: Element, off: nat, id: nat, at: Option<nat>)
    requires LastStands(es, off, id, at)
    ensures LastStands(es + [e], off, id, if e.id == id then Some(off + |Flat(es)|) else at)
  {
    hide PlaceIn, Lacks;
    LacksSnoc(es, e, id);
    if e.id == id {
      NewLast(es, e, off);
    } else if at.Some? {
      var i: nat :| LastAt(es, id, i) && at.value == PlaceIn(es, off, i);
      LastSnoc(es, e, off, id, i);
    }
  }

  lemma SpansSnoc(es: seq<Element>, e: Element, off: nat, id: nat, span: Option<(nat, nat)>)
    requires LastSpans(es, off, id, span)
    ensures LastSpans(es + [e], off, id, if e.id == id then Some((off + |Flat(es)|, |e.raw|)) else span)
  {
    hide PlaceIn, Lacks;
    LacksSnoc(es, e, id);
    if e.id == id {
      NewLast(es, e, off);
    } else if span.Some? {
      var i: nat :| LastAt(es, id, i) && span.value == (PlaceIn(es, off, i), |es[i].raw|);
      LastSnoc(es, e, off, id, i);
    }
  }

  lemma ListedSnoc(es: seq<Element>, e: Element, start: nat, at: Option<nat>)
    requires FirstListed(es, start, at)
    ensures FirstListed(es + [e], start,
      if at.None? && Listed(e).Some? then Some(start + Listed(e).value) else at)
  {
    hide Listed;
    var all := es + [e];
    assert all[|es|] == e && forall j :: 0 <= j < |es| ==> all[j] == es[j];
    if at.None? {
      if Listed(e).Some? { assert forall j :: 0 <= j < |es| ==> es[j] in es; }
    } else {
      var i: nat :| i < |es| && Listed(es[i]).Some? && at.value == start + Listed(es[i]).value
                    && forall j :: 0 <= j < i ==> Listed(es[j]) == None;
      assert Listed(all[i]).Some? && forall j :: 0 <= j < i ==> Listed(all[j]) == None;
    }
  }

  /** What one more element changes. */
  function Noticed(f: Found, e: Element, p: nat, start: nat): Found {
    if e.id == ID_INFO then f.(info := Some(p))
    else if e.id == ID_TRACKS then f.(tracks := Some(p))
    else if e.id == ID_CUES then f.(cues := Some(p))
    else if e.id == ID_ATTACHMENTS then f.(attachments := Some((p, |e.raw|)))
    else if Listed(e).Some? && f.cues.None? then f.(cues := Some(start + Listed(e).value))
    else f
  }

  lemma CuesSnoc(es: seq<Element>, e: Element, off: nat, start: nat, at: Option<nat>)
    requires CuesStand(es, off, start, at)
    ensures CuesStand(es + [e], off, start,
      if e.id == ID_CUES then Some(off + |Flat(es)|)
      else if Listed(e).Some? && at.None? then Some(start + Listed(e).value) else at)
  {
    hide LastStands, FirstListed, Lacks, SeekPosition;
    LacksSnoc(es, e, ID_CUES);
    if Lacks(es, ID_CUES) {
      ListedSnoc(es, e, start, at);
      if e.id == ID_CUES { NewCuesStand(es, e, off); }
    } else {
      StandsSnoc(es, e, off, ID_CUES, at);
      StandsSome(es, off, ID_CUES, at);
    }
  }

  lemma NewCuesStand(es: seq<Element>, e: Element, off: nat)
    ensures LastStands(es + [e], off, e.id, Some(off + |Flat(es)|))
  {
    hide LastAt, PlaceIn;
    NewLast(es, e, off);
  }

  lemma StandsSome(es: seq<Element>, off: nat, id: nat, at: Option<nat>)
    requires LastStands(es, off, id, at) && !Lacks(es, id)
    ensures at.Some?
  {
  }

  lemma FindsMore(es: seq<Element>, e: Element, off: nat, start: nat, f: Found)
    requires Finds(es, off, start, f)
    ensures Finds(es + [e], off, start, Noticed(f, e, off + |Flat(es)|, start))
  {
    hide LastStands, LastSpans, CuesStand, SeekPosition;
    StandsSnoc(es, e, off, ID_INFO, f.info);
    StandsSnoc(es, e, off, ID_TRACKS, f.tracks);
    SpansSnoc(es, e, off, ID_ATTACHMENTS, f.attachments);
    CuesSnoc(es, e, off, start, f.cues);
  }

  lemma FindsNothing(off: nat, start: nat)
    ensures Finds([], off, start, NOTHING_FOUND)
  {
  }

  /** The walk at one element. */
  lemma OneVisited(r: Bytes, p: nat, e: Element, start: nat, end: nat, f: Found)
    requires IsElement(e) && At(r, p, e.raw) && e.id != ID_CLUSTER && p + |e.raw| <= end
    requires e.id == ID_SEEK_HEAD ==> |e.data| <= MAX_ELEMENT
    requires ReadHeaderAt(r, p) == Ok(Header(e.id, |e.data|, |e.raw| - |e.data|)) && 2 <= |e.raw| - |e.data|
    ensures WalkTop(r, p, start, end, f) == WalkTop(r, p + |e.raw|, start, end, Noticed(f, e, p, start))
  {
    hide ReadHeaderAt, SeekPosition, ParseHeader;
    var h := |e.raw| - |e.data|;
    if e.id == ID_SEEK_HEAD {
      ElementTail(e);
      SubSlice(r, p, p + |e.raw|, h, |e.raw|);
      assert ReadAt(r, p + h, |e.data|) == Ok(e.data);
    }
    HeaderBounds(r, p);
    assert Visit(r, p, Header(e.id, |e.data|, h), start, f) == Ok(Noticed(f, e, p, start));
  }

  /** The walk over the elements es, of whatever IDs, finds what it should and goes on behind them. */
  lemma {:induction false} TopWalk(r: Bytes, off: nat, es: seq<Element>, k: nat, start: nat, end: nat)
    returns (f: Found)
    requires At(r, off, Flat(es)) && Top(es) && k <= |es| && off + |Flat(es)| <= end
    ensures Finds(es[..k], off, start, f)
    ensures WalkTop(r, off, start, end, NOTHING_FOUND) == WalkTop(r, PlaceIn(es, off, k), start, end, f)
  {
    hide WalkTop, ReadHeaderAt, Finds, Noticed, IsElement, At;
    if k == 0 {
      f := NOTHING_FOUND;
      FindsNothing(off, start);
      assert es[..0] == [];
    } else {
      var g := TopWalk(r, off, es, k - 1, start, end);
      var e, p := es[k - 1], PlaceIn(es, off, k - 1);
      assert es[..k - 1] + [e] == es[..k];
      FlatSnoc(es[..k - 1], e);
      StandsInside(r, off, es, k - 1);
      ElementAt(r, p, e);
      ElementLength(e);
      assert e in es;
      OneVisited(r, p, e, start, end, g);
      FindsMore(es[..k - 1], e, off, start, g);
      f := Noticed(g, e, p, start);
    }
  }

  /** Element i of es stands in the file where PlaceIn says. */
  lemma StandsInside(r: Bytes, off: nat, es: seq<Element>, i: nat)
    requires At(r, off, Flat(es)) && i < |es|
    ensures At(r, PlaceIn(es, off, i), es[i].raw) && PlaceIn(es, off, i) + |es[i].raw| <= off + |Flat(es)|
    ensures AllElements(es) ==> IsElement(es[i])
  {
    hide At, IsElement;
    assert es == es[..i] + [es[i]] + es[i + 1..];
    FlatOfThree(es[..i], es[i], es[i + 1..]);
    AtSplit(r, off, Flat(es[..i]) + es[i].raw, Flat(es[i + 1..]));
    AtSplit(r, off, Flat(es[..i]), es[i].raw);
  }

  // ---------------------------------------------------------------- Open

  /** A file as far as the elements es reach: the EBML header e, the Segment's header, and es. */
  predicate Headed(r: Bytes, e: Bytes, seg: Header, es: seq<Element>) {
    var start := |e| + seg.headerLen;
    && HeaderOk(e) && At(r, 0, e) && ReadHeaderAt(r, |e|) == Ok(seg) && seg.id == ID_SEGMENT
    && At(r, start, Flat(es)) && Top(es) && start + |Flat(es)| <= SegmentEnd(start, seg.size, |r|)
  }

  /** And a cluster stands behind them. */
  predicate Fronted(r: Bytes, e: Bytes, seg: Header, es: seq<Element>) {
    var start := |e| + seg.headerLen;
    && Headed(r, e, seg, es)
    && start + |Flat(es)| < SegmentEnd(start, seg.size, |r|) && ClusterStands(r, start + |Flat(es)|)
  }

  predicate ClusterStands(r: Bytes, off: nat) {
    ReadHeaderAt(r, off).Ok? && ReadHeaderAt(r, off).value.id == ID_CLUSTER
  }

  lemma EbmlRead(r: Bytes, e: Bytes)
    requires HeaderOk(e) && At(r, 0, e)
    ensures ReadHeaderAt(r, 0) == ParseHeader(e)
    ensures ReadAt(r, 0, ParseHeader(e).value.headerLen + ParseHeader(e).value.size) == Ok(e)
  {
    hide ParseHeader, ReadHeaderAt;
    ParsedHeader(e);
    var n := ParseHeader(e).value.headerLen;
    SubSlice(r, 0, |e|, 0, n);
    HeaderAt(r, 0, e);
  }

  lemma OpenFrom(r: Bytes, e: Bytes, seg: Header)
    requires HeaderOk(e) && At(r, 0, e) && ReadHeaderAt(r, |e|) == Ok(seg) && seg.id == ID_SEGMENT
    ensures OpenMeta(r) == MetaFrom(r, e, |e| + seg.headerLen, SegmentEnd(|e| + seg.headerLen, seg.size, |r|))
  {
    hide ReadHeaderAt, At, ReadAt, ParseHeader, MetaFrom;
    EbmlRead(r, e);
  }

  lemma StopsAtCluster(r: Bytes, off: nat, start: nat, end: nat, f: Found)
    requires ClusterStands(r, off) && off < end
    ensures WalkTop(r, off, start, end, f) == Ok((f, off))
  {
    hide ReadHeaderAt;
  }

  /** The metadata when the walk found f in front of the cluster at `first`. */
  function FromFound(r: Bytes, e: Bytes, start: nat, end: nat, f: Found, first: nat): Result<Meta> {
    if f.info.None? || f.tracks.None? || f.cues.None? then Err(Unsupported) else
    var info :- ParseInfo(r, f.info.value);
    var tracks :- ParseTracks(r, f.tracks.value);
    var cues :- ParseCues(r, f.cues.value, tracks.1, start);
    Ok(Meta(|r|, e, start, end, ScaleOf(info), DurationOf(info), info, tracks.0, tracks.1, f.attachments, first, cues))
  }

  /** Open walks over the elements es, whatever their IDs, and uses what stands where it should. */
  lemma OpenWalks(r: Bytes, e: Bytes, seg: Header, es: seq<Element>) returns (f: Found)
    requires Fronted(r, e, seg, es)
    ensures var start := |e| + seg.headerLen;
      && Finds(es, start, start, f)
      && OpenMeta(r) == FromFound(r, e, start, SegmentEnd(start, seg.size, |r|), f, start + |Flat(es)|)
  {
    hide ReadHeaderAt, At, WalkTop, ParseInfo, ParseTracks, ParseCues, ScaleOf, DurationOf, HeaderOk, Top, Finds,
         OpenMeta;
    var start := |e| + seg.headerLen;
    var end := SegmentEnd(start, seg.size, |r|);
    assert es[..|es|] == es;
    OpenFrom(r, e, seg);
    f := TopWalk(r, start, es, |es|, start, end);
    StopsAtCluster(r, start + |Flat(es)|, start, end, f);
    HeaderSize(e);
  }

  lemma HeaderSize(e: Bytes)
    requires HeaderOk(e)
    ensures |e| > 0
  {
    ParsedHeader(e);
  }

  /** An element that stands in the file is read whole, unless it is over the reader's bound. */
  lemma ReadStanding(r: Bytes, p: nat, e: Element)
    requires IsElement(e) && At(r, p, e.raw)
    ensures ReadElement(r, p, e.id) == if |e.data| <= MAX_ELEMENT then Ok(e.data) else Err(Unsupported)
  {
    hide ReadHeaderAt, ParseHeader;
    ElementAt(r, p, e);
    ElementTail(e);
    SubSlice(r, p, p + |e.raw|, |e.raw| - |e.data|, |e.raw|);
  }

  predicate Bounded(e: Element) { |e.data| <= MAX_ELEMENT && Elements(e.data).Ok? }

  lemma InfoExactly(r: Bytes, p: nat, e: Element)
    requires IsElement(e) && At(r, p, e.raw) && e.id == ID_INFO
    ensures ParseInfo(r, p).Ok? <==> Bounded(e)
    ensures Bounded(e) ==> ParseInfo(r, p) == Ok(KidsOf(e))
  {
    hide ReadElement, Elements, At, IsElement;
    ReadStanding(r, p, e);
  }

  /** e lists tracks that can all be read, and the first video track with a number is child v. */
  predicate TracksWith(e: Element, v: nat) {
    Bounded(e) && AllReadable(KidsOf(e), ID_TRACK_ENTRY) && FirstVideo(KidsOf(e), v)
  }

  lemma {:induction false} FindVideo(es: seq<Element>) returns (v: nat)
    ensures (exists e :: e in es && VideoNumber(e) > 0) ==> FirstVideo(es, v)
  {
    hide VideoNumber;
    v := 0;
    if es != [] {
      if VideoNumber(es[0]) == 0 {
        var w := FindVideo(es[1..]);
        v := w + 1;
        assert es == [es[0]] + es[1..];
      }
    }
  }

  lemma TracksExactly(r: Bytes, p: nat, e: Element)
    requires IsElement(e) && At(r, p, e.raw) && e.id == ID_TRACKS
    ensures ParseTracks(r, p).Ok? <==> exists v: nat :: TracksWith(e, v)
    ensures forall v: nat :: TracksWith(e, v) ==> ParseTracks(r, p) == Ok((KidsOf(e), VideoNumber(KidsOf(e)[v])))
  {
    hide ReadElement, Elements, At, IsElement, VideoNumber, VideoIn, AllReadable;
    ReadStanding(r, p, e);
    var v := FindVideo(KidsOf(e));
    VideoExactly(KidsOf(e));
    if ParseTracks(r, p).Ok? { assert TracksWith(e, v); }
  }

  /** c is what one of the CuePoints in e says of the video track. */
  predicate SaidIn(e: Element, video: nat, start: nat, size: nat, c: CuePoint) {
    exists p :: p in KidsOf(e) && Says(p, video, start, size, c)
  }

  /** e lists cues that can all be read, and some of the video track. */
  ghost predicate CuesWith(e: Element, video: nat, start: nat, size: nat) {
    && Bounded(e) && (forall p :: p in KidsOf(e) ==> PointReadable(p))
    && exists c :: SaidIn(e, video, start, size, c)
  }

  ghost predicate SameCues(a: seq<CuePoint>, b: seq<CuePoint>) { forall c :: c in a <==> c in b }

  lemma SortedSame(cues: seq<CuePoint>)
    ensures Sorted(SortCues(cues)) && SameCues(SortCues(cues), cues) && (SortCues(cues) == [] <==> cues == [])
  {
    hide SortCues, Sorted;
    SortCuesSorts(cues);
    forall c
      ensures c in SortCues(cues) <==> c in cues
    {
      assert c in multiset(SortCues(cues)) <==> c in multiset(cues);
    }
    assert |multiset(SortCues(cues))| == |SortCues(cues)| && |multiset(cues)| == |cues|;
  }

  lemma CuesParsedExactly(r: Bytes, at: nat, e: Element, video: nat, start: nat)
    requires IsElement(e) && At(r, at, e.raw) && e.id == ID_CUES
    ensures ParseCues(r, at, video, start).Ok? <==> CuesWith(e, video, start, |r|)
    ensures ParseCues(r, at, video, start).Ok? ==> Sorted(ParseCues(r, at, video, start).value)
    ensures ParseCues(r, at, video, start).Ok? ==>
      forall c :: c in ParseCues(r, at, video, start).value <==> SaidIn(e, video, start, |r|, c)
  {
    hide ReadElement, Elements, At, IsElement, Says, PointReadable, CuesIn, SortCues, Sorted;
    ReadStanding(r, at, e);
    CuesRead(KidsOf(e), video, start, |r|);
    var found := CuesIn(KidsOf(e), video, start, |r|);
    if found.Ok? {
      SortedSame(found.value);
      assert forall c :: c in found.value <==> SaidIn(e, video, start, |r|, c);
      if found.value != [] { assert SaidIn(e, video, start, |r|, found.value[0]); }
    }
  }

  lemma LastUnique(es: seq<Element>, id: nat, i: nat, j: nat)
    requires LastAt(es, id, i) && LastAt(es, id, j)
    ensures i == j
  {
  }

  lemma StandsWhere(es: seq<Element>, off: nat, id: nat, i: nat, at: Option<nat>)
    requires LastAt(es, id, i) && LastStands(es, off, id, at)
    ensures at == Some(PlaceIn(es, off, i))
  {
    hide PlaceIn;
    if at.Some? {
      var j: nat :| LastAt(es, id, j) && at.value == PlaceIn(es, off, j);
      LastUnique(es, id, i, j);
    }
  }

  lemma CuesOne(es: seq<Element>, off: nat, start: nat, a: Option<nat>, b: Option<nat>)
    requires CuesStand(es, off, start, a) && CuesStand(es, off, start, b)
    ensures a == b
  {
    hide PlaceIn, Listed;
    if Lacks(es, ID_CUES) {
      FirstOne(es, start, a, b);
    } else {
      StandsSome(es, off, ID_CUES, a);
      var i: nat :| LastAt(es, ID_CUES, i) && a.value == PlaceIn(es, off, i);
      StandsWhere(es, off, ID_CUES, i, b);
    }
  }

  lemma FirstOne(es: seq<Element>, start: nat, a: Option<nat>, b: Option<nat>)
    requires FirstListed(es, start, a) && FirstListed(es, start, b)
    ensures a == b
  {
    hide Listed;
    if a.Some? && b.Some? {
      var i: nat :| i < |es| && Listed(es[i]).Some? && a.value == start + Listed(es[i]).value
                    && forall j :: 0 <= j < i ==> Listed(es[j]) == None;
      var k: nat :| k < |es| && Listed(es[k]).Some? && b.value == start + Listed(es[k]).value
                    && forall j :: 0 <= j < k ==> Listed(es[j]) == None;
      assert i == k;
    }
  }

  /** Without an Info, a Tracks, or a place for the Cues in front of the first cluster, Open gives up. */
  lemma OpenNeeds(r: Bytes, e: Bytes, seg: Header, es: seq<Element>)
    requires Fronted(r, e, seg, es)
    requires Lacks(es, ID_INFO) || Lacks(es, ID_TRACKS)
             || (Lacks(es, ID_CUES) && forall x :: x in es ==> Listed(x) == None)
    ensures OpenMeta(r) == Err(Unsupported)
  {
    hide Fronted, OpenMeta, Listed, PlaceIn;
    var f := OpenWalks(r, e, seg, es);
  }

  lemma LongSeekHead(r: Bytes, off: nat, start: nat, end: nat, f: Found)
    requires off < end && ReadHeaderAt(r, off).Ok?
    requires ReadHeaderAt(r, off).value.id == ID_SEEK_HEAD && ReadHeaderAt(r, off).value.size > MAX_ELEMENT
    ensures WalkTop(r, off, start, end, f) == Err(Unsupported)
  {
    hide ReadHeaderAt, SeekPosition;
    HeaderBounds(r, off);
  }

  /** Nor is a file accepted in which no cluster stands behind the elements es: at the end of the Segment, in front
      of an element of unknown size or a SeekHead over the reader's bound, or where nothing can be read. */
  lemma OpenStops(r: Bytes, e: Bytes, seg: Header, es: seq<Element>)
    requires Headed(r, e, seg, es)
    ensures var start := |e| + seg.headerLen; var q := start + |Flat(es)|; var h := ReadHeaderAt(r, q);
      if q == SegmentEnd(start, seg.size, |r|) then OpenMeta(r) == Err(Unsupported)
      else if h.Err? then OpenMeta(r) == Err(h.error)
      else
        h.value.id != ID_CLUSTER && (h.value.size == UNKNOWN_SIZE
                                     || (h.value.id == ID_SEEK_HEAD && h.value.size > MAX_ELEMENT)) ==>
          OpenMeta(r) == Err(Unsupported)
  {
    hide ReadHeaderAt, At, ParseInfo, ParseTracks, ParseCues, ScaleOf, DurationOf, HeaderOk, Top, Finds, OpenMeta,
         Visit;
    var start := |e| + seg.headerLen;
    assert es[..|es|] == es;
    OpenFrom(r, e, seg);
    var end, q := SegmentEnd(start, seg.size, |r|), start + |Flat(es)|;
    var f := TopWalk(r, start, es, |es|, start, end);
    if q < end && ReadHeaderAt(r, q).Ok? && ReadHeaderAt(r, q).value.id == ID_SEEK_HEAD
       && ReadHeaderAt(r, q).value.size > MAX_ELEMENT {
      LongSeekHead(r, q, start, end, f);
    }
  }

  /** What makes the file of OpenExactly acceptable: all that is used can be read. */
  ghost predicate Usable(info: Element, tracks: Element, cues: Element, v: nat, start: nat, size: nat) {
    Bounded(info) && TracksWith(tracks, v) && CuesWith(cues, VideoNumber(KidsOf(tracks)[v]), start, size)
  }

  /** The Source should be this one: it has the children of the Info and the Tracks, the first video track, and all
      cues of that track in ascending order. */
  ghost predicate Described(r: Bytes, e: Bytes, start: nat, end: nat, info: Element, tracks: Element, cues: Element,
          v: nat, m: Meta) {
    && m.size == |r| && m.ebmlHeader == e && m.segmentData == start && m.segmentEnd == end
    && m.infoChildren == KidsOf(info) && m.timestampScale == ScaleOf(m.infoChildren)
    && m.duration == DurationOf(m.infoChildren) && m.tracksChildren == KidsOf(tracks)
    && v < |m.tracksChildren| && m.videoTrack == VideoNumber(m.tracksChildren[v])
    && Sorted(m.cues) && forall c :: c in m.cues <==> SaidIn(cues, m.videoTrack, start, |r|, c)
  }

  /** Opening gives o: a Source exactly when everything is usable, and then the one described. */
  ghost predicate OpensTo(r: Bytes, e: Bytes, start: nat, end: nat, info: Element, tracks: Element, cues: Element,
          o: Result<Meta>) {
    && (o.Ok? <==> exists v: nat :: Usable(info, tracks, cues, v, start, |r|))
    && forall v: nat :: Usable(info, tracks, cues, v, start, |r|) ==>
         o.Ok? && Described(r, e, start, end, info, tracks, cues, v, o.value)
  }

  lemma FoundExactly(r: Bytes, e: Bytes, start: nat, end: nat, f: Found, first: nat, info: Element, tracks: Element,
          cues: Element)
    requires f.info.Some? && f.tracks.Some? && f.cues.Some?
    requires IsElement(info) && info.id == ID_INFO && At(r, f.info.value, info.raw)
    requires IsElement(tracks) && tracks.id == ID_TRACKS && At(r, f.tracks.value, tracks.raw)
    requires IsElement(cues) && cues.id == ID_CUES && At(r, f.cues.value, cues.raw)
    ensures OpensTo(r, e, start, end, info, tracks, cues, FromFound(r, e, start, end, f, first))
    ensures FromFound(r, e, start, end, f, first).Ok? ==>
      var m := FromFound(r, e, start, end, f, first).value; m.attachments == f.attachments && m.firstCluster == first
  {
    hide ParseInfo, ParseTracks, ParseCues, TracksWith, CuesWith, Bounded, ScaleOf, DurationOf, IsElement, At, SaidIn,
         Sorted, VideoNumber, KidsOf;
    InfoExactly(r, f.info.value, info);
    TracksExactly(r, f.tracks.value, tracks);
    if v: nat :| TracksWith(tracks, v) {
      forall w: nat | TracksWith(tracks, w)
        ensures w == v
      {
        OneFirst(tracks, v, w);
      }
      VideoInside(tracks, v);
      CuesParsedExactly(r, f.cues.value, cues, VideoNumber(KidsOf(tracks)[v]), start);
      assert FromFound(r, e, start, end, f, first).Ok? <==> Usable(info, tracks, cues, v, start, |r|);
    }
  }

  /** Open, said of the elements in front of the first cluster: whatever else stands among them, it accepts the
      file exactly when the last Info, the last Tracks and the Cues can be read, with a video track and a cue of
      it, and then gives what is described, the last Attachments, and the first cluster. The Cues are the last
      element of that ID there, or where the first SeekHead that lists them says, anywhere in the file. */
  lemma OpenExactly(r: Bytes, e: Bytes, seg: Header, es: seq<Element>, i: nat, t: nat, at: nat, cues: Element)
    requires Fronted(r, e, seg, es) && LastAt(es, ID_INFO, i) && LastAt(es, ID_TRACKS, t)
    requires CuesStand(es, |e| + seg.headerLen, |e| + seg.headerLen, Some(at))
    requires IsElement(cues) && cues.id == ID_CUES && At(r, at, cues.raw)
    ensures i < |es| && t < |es|
    ensures var start := |e| + seg.headerLen;
      OpensTo(r, e, start, SegmentEnd(start, seg.size, |r|), es[i], es[t], cues, OpenMeta(r))
    ensures OpenMeta(r).Ok? ==>
      && LastSpans(es, |e| + seg.headerLen, ID_ATTACHMENTS, OpenMeta(r).value.attachments)
      && OpenMeta(r).value.firstCluster == |e| + seg.headerLen + |Flat(es)|
  {
    hide OpenMeta, Fronted, FromFound, OpensTo, PlaceIn, CuesStand, IsElement, At, LastAt, LastSpans;
    var start := |e| + seg.headerLen;
    var f := OpenWalks(r, e, seg, es);
    StandsWhere(es, start, ID_INFO, i, f.info);
    StandsWhere(es, start, ID_TRACKS, t, f.tracks);
    CuesOne(es, start, start, f.cues, Some(at));
    InFronted(r, e, seg, es, ID_INFO, i);
    InFronted(r, e, seg, es, ID_TRACKS, t);
    FoundExactly(r, e, start, SegmentEnd(start, seg.size, |r|), f, start + |Flat(es)|, es[i], es[t], cues);
  }

  lemma InFronted(r: Bytes, e: Bytes, seg: Header, es: seq<Element>, id: nat, i: nat)
    requires Fronted(r, e, seg, es) && LastAt(es, id, i)
    ensures i < |es| && IsElement(es[i]) && es[i].id == id
    ensures At(r, PlaceIn(es, |e| + seg.headerLen, i), es[i].raw)
  {
    hide ReadHeaderAt, HeaderOk, PlaceIn, IsElement, At;
    StandsInside(r, |e| + seg.headerLen, es, i);
  }

  lemma OneFirst(e: Element, v: nat, w: nat)
    requires TracksWith(e, v) && TracksWith(e, w)
    ensures v == w
  {
    hide VideoNumber, Bounded, KidsOf, AllReadable;
  }

  lemma VideoInside(e: Element, v: nat)
    requires TracksWith(e, v)
    ensures v < |KidsOf(e)|
  {
    hide VideoNumber, Bounded, KidsOf, AllReadable;
  }
}
