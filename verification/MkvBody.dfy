/** The bodies of a clip's clusters: the kept blocks, referenced or with rewritten timestamps,
    read back as the same blocks at shifted times. */
module MkvBody {
  import opened Basics
  import opened Ebml
  import opened Layouts
  import opened Mkv
  import opened MkvBlocks

  // ---------------------------------------------------------------- blocks as they stand in a file

  function RawOf(r: Bytes, b: Block): Bytes {
    if b.off + b.len <= |r| then r[b.off..b.off + b.len] else []
  }

  /** The element whose header and payload are raw. */
  function ElementOf(raw: Bytes): (e: Element)
    ensures |e.data| <= |e.raw| && e.raw == raw
  {
    match ParseHeader(raw)
    case Ok(h) => Element(h.id, if h.headerLen <= |raw| then raw[h.headerLen..] else [], raw)
    case Err(_) => Element(0, [], raw)
  }

  lemma ElementOfRaw(e: Element)
    requires IsElement(e)
    ensures ElementOf(e.raw) == e
  {
    hide ParseHeader;
  }

  /** b is what its own bytes in r say, under a cluster with timestamp ts. */
  predicate Stands(r: Bytes, b: Block, ts: nat) {
    && b.off + b.len <= |r|
    && IsElement(ElementOf(RawOf(r, b)))
    && ParseBlock(ElementOf(RawOf(r, b)), b.off, ts) == Ok(Some(b))
  }

  predicate AllStand(r: Bytes, bs: seq<Block>, ts: nat) {
    forall b :: b in bs ==> Stands(r, b, ts)
  }

  lemma {:induction false} BlocksInStand(r: Bytes, kids: seq<Element>, off: nat, ts: nat)
    requires AllElements(kids) && At(r, off, Flat(kids))
    requires forall i :: 0 <= i < |kids| ==> |kids[i].data| <= |kids[i].raw|
    requires BlocksIn(kids, off, ts).Ok?
    ensures AllStand(r, BlocksIn(kids, off, ts).value, ts)
  {
    hide IsElement, ParseBlock, ElementOf, At, Stands;
    if kids != [] {
      var e := kids[0];
      assert IsElement(e);
      AtSplit(r, off, e.raw, Flat(kids[1..]));
      BlocksInStand(r, kids[1..], off + |e.raw|, ts);
      if ParseBlock(e, off, ts).value.Some? {
        OneStands(r, e, off, ts, ParseBlock(e, off, ts).value.value);
      }
    }
  }

  lemma OneStands(r: Bytes, e: Element, off: nat, ts: nat, b: Block)
    requires IsElement(e) && |e.data| <= |e.raw| && At(r, off, e.raw) && ParseBlock(e, off, ts) == Ok(Some(b))
    ensures Stands(r, b, ts)
  {
    hide ParseBlock, ElementOf, IsElement;
    TimestampPlace(e, off, ts, b);
    ElementOfRaw(e);
  }

  /** Every block ReadBlocks returns stands in the file as described. */
  lemma BlocksStand(r: Bytes, c: Cluster)
    requires ReadBlocks(r, c).Ok?
    ensures AllStand(r, ReadBlocks(r, c).value, c.timestamp)
  {
    hide ParseBlock, Elements, Flat, IsElement, Stands;
    var body := ReadAt(r, c.blocksOff, c.end - c.blocksOff).value;
    ElementsTile(body);
    var kids := Elements(body).value;
    SanePayloads(kids);
    if c.end > c.blocksOff {
      BlocksInStand(r, kids, c.blocksOff, c.timestamp);
    } else {
      NoBlocks(kids, c.blocksOff, c.timestamp);
    }
  }

  lemma NoBlocks(kids: seq<Element>, off: nat, ts: nat)
    requires AllElements(kids) && Flat(kids) == []
    ensures kids == []
  {
    if kids != [] {
      assert IsElement(kids[0]);
      ParsedHeader(kids[0].raw);
    }
  }

  // ---------------------------------------------------------------- what is kept

  lemma {:induction false} KeepFromWithin(bs: seq<Block>, video: nat, keyTime: int)
    ensures forall b :: b in KeepFrom(bs, video, keyTime) ==> b in bs && b.time >= keyTime
  {
    KeyIndexInside(bs, video, keyTime, 0);
    NotBeforeWithin(bs[KeyIndex(bs, video, keyTime, 0)..], keyTime);
  }

  lemma {:induction false} NotBeforeWithin(bs: seq<Block>, t: int)
    ensures forall b :: b in NotBefore(bs, t) <==> b in bs && b.time >= t
  {
    if bs != [] {
      NotBeforeWithin(bs[1..], t);
      assert bs == [bs[0]] + bs[1..];
    }
  }

  lemma {:induction false} KeepUntilWithin(bs: seq<Block>, video: nat, endT: int, done: bool)
    ensures forall b :: b in KeepUntil(bs, video, endT, done) ==> b in bs && b.time < endT
  {
    if bs != [] {
      KeepUntilWithin(bs[1..], video, endT, done || (bs[0].track == video && bs[0].time >= endT));
    }
  }

  // ---------------------------------------------------------------- the kept blocks' new bytes

  /** A kept block's bytes in the clip: as in the source, or with its timestamp rewritten against base. */
  function NewRaw(r: Bytes, b: Block, base: Option<int>): Bytes {
    var raw := RawOf(r, b);
    match base
    case None => raw
    case Some(o) => if b.tsOff + 2 <= |raw| then Patch(raw, b.tsOff, Be16(b.time - o)) else raw
  }

  function NewElements(r: Bytes, keep: seq<Block>, base: Option<int>): seq<Element> {
    if keep == [] then [] else [ElementOf(NewRaw(r, keep[0], base))] + NewElements(r, keep[1..], base)
  }

  /** The kept blocks laid end to end from off, with times moved by delta. */
  function Moved(keep: seq<Block>, off: nat, delta: int): seq<Block> {
    if keep == [] then []
    else [keep[0].(off := off, time := keep[0].time + delta)] + Moved(keep[1..], off + keep[0].len, delta)
  }

  predicate InRange(keep: seq<Block>, origin: int) {
    forall b :: b in keep ==> -32768 <= b.time - origin <= 32767
  }

  /** The new cluster's timestamp fits how its blocks' relative timestamps are stored. */
  predicate Fits(keep: seq<Block>, ts: nat, base: Option<int>, ts': nat, origin: int) {
    match base
    case None => I64(ts') == I64(ts) - origin
    case Some(o) => o == origin && I64(ts') == 0 && InRange(keep, origin)
  }

  lemma NewBlock(r: Bytes, b: Block, ts: nat, base: Option<int>, off': nat, ts': nat, origin: int)
    requires Stands(r, b, ts) && Fits([b], ts, base, ts', origin)
    ensures |NewRaw(r, b, base)| == b.len && IsElement(ElementOf(NewRaw(r, b, base)))
    ensures ParseBlock(ElementOf(NewRaw(r, b, base)), off', ts') == Ok(Some(b.(off := off', time := b.time - origin)))
  {
    hide ParseBlock, ElementOf, IsElement, I64, I16, BeVal, Be16, Patch, PatchElement;
    var raw := RawOf(r, b);
    var e := ElementOf(raw);
    TimestampPlace(e, b.off, ts, b);
    match base {
      case None =>
        MovedBlock(e, b.off, ts, off', ts');
      case Some(o) =>
        assert b in [b];
        Be16Value(b.time - origin);
        var w := Be16(b.time - origin);
        PatchedBlock(e, b.off, ts, b, w, off', ts');
        PatchedSizes(e, b.tsOff, w);
        ElementOfRaw(PatchElement(e, b.tsOff, w));
    }
  }

  /** The kept blocks' new bytes read as exactly those blocks, moved and shifted. */
  lemma {:induction false} NewBlocksRead(r: Bytes, keep: seq<Block>, ts: nat, base: Option<int>, off': nat, ts': nat,
          origin: int)
    requires AllStand(r, keep, ts) && Fits(keep, ts, base, ts', origin)
    ensures AllElements(NewElements(r, keep, base))
    ensures forall i :: 0 <= i < |NewElements(r, keep, base)| ==>
      |NewElements(r, keep, base)[i].data| <= |NewElements(r, keep, base)[i].raw|
    ensures BlocksIn(NewElements(r, keep, base), off', ts') == Ok(Moved(keep, off', -origin))
  {
    hide ParseBlock, ElementOf, IsElement, I64, NewRaw, Stands;
    if keep != [] {
      var b := keep[0];
      NewBlock(r, b, ts, base, off', ts', origin);
      NewBlocksRead(r, keep[1..], ts, base, off' + b.len, ts', origin);
    }
  }

  lemma {:induction false} NewElementsSnoc(r: Bytes, keep: seq<Block>, b: Block, base: Option<int>)
    ensures NewElements(r, keep + [b], base) == NewElements(r, keep, base) + [ElementOf(NewRaw(r, b, base))]
  {
    hide ElementOf, NewRaw;
    if keep == [] {
      assert keep + [b] == [b];
    } else {
      assert (keep + [b])[1..] == keep[1..] + [b];
      NewElementsSnoc(r, keep[1..], b, base);
    }
  }

  // ---------------------------------------------------------------- the kept blocks' parts

  lemma StandsParts(r: Bytes, b: Block, ts: nat, w: Bytes)
    requires Stands(r, b, ts) && |w| == 2
    ensures PartOk(Range(b.off, b.len), |r|) && PartBytes(Range(b.off, b.len), r) == RawOf(r, b)
    ensures b.tsOff + 2 <= b.len == |RawOf(r, b)|
    ensures var head, tail := Literal(b.prefix + w), Range(b.off + b.tsOff + 2, b.len - b.tsOff - 2);
      && PartOk(head, |r|) && PartOk(tail, |r|)
      && PartBytes(head, r) + PartBytes(tail, r) == Patch(RawOf(r, b), b.tsOff, w)
  {
    hide ParseBlock, ElementOf, IsElement;
    TimestampPlace(ElementOf(RawOf(r, b)), b.off, ts, b);
    SubSlice(r, b.off, b.off + b.len, b.tsOff + 2, b.len);
  }

  lemma {:induction false} BlockPartsBytes(r: Bytes, keep: seq<Block>, ts: nat)
    requires AllStand(r, keep, ts)
    ensures AllOk(BlockParts(keep), |r|) && Flatten(BlockParts(keep), r) == Flat(NewElements(r, keep, None))
  {
    hide Stands, ElementOf, PartBytes, PartOk, AppendPart, RawOf, Flat, Flatten;
    if keep == [] {
      EmptyBody(r);
    } else {
      var init, b := keep[..|keep| - 1], keep[|keep| - 1];
      BlockPartsBytes(r, init, ts);
      StandsParts(r, b, ts, [0, 0]);
      AppendPartAdds(BlockParts(init), Range(b.off, b.len), r);
      InitLast(keep);
      NewElementsSnoc(r, init, b, None);
      FlatSnoc(NewElements(r, init, None), ElementOf(RawOf(r, b)));
    }
  }

  lemma EmptyBody(r: Bytes)
    ensures Flatten([], r) == [] && Flat([]) == []
  {
  }

  /** Rebasing succeeds exactly when every new relative timestamp is a signed 16-bit value. */
  lemma {:induction false} RebasedExactly(keep: seq<Block>, base: int)
    ensures RebasedParts(keep, base).Ok? <==> InRange(keep, base)
  {
    hide AppendPart, Be16;
    if keep != [] {
      InitLast(keep);
      RebasedExactly(keep[..|keep| - 1], base);
    }
  }

  lemma {:induction false} RebasedPartsBytes(r: Bytes, keep: seq<Block>, ts: nat, base: int)
    requires AllStand(r, keep, ts) && RebasedParts(keep, base).Ok?
    ensures AllOk(RebasedParts(keep, base).value, |r|)
    ensures Flatten(RebasedParts(keep, base).value, r) == Flat(NewElements(r, keep, Some(base)))
  {
    hide *;
    if keep == [] {
      NoneRebased(r, base);
    } else {
      var init, b := keep[..|keep| - 1], keep[|keep| - 1];
      InitLast(keep);
      RebasedLast(keep, base);
      AllStandInit(r, init, b, ts);
      RebasedPartsBytes(r, init, ts, base);
      RebasedStep(r, RebasedParts(init, base).value, init, b, ts, base);
    }
  }

  lemma NoneRebased(r: Bytes, base: int)
    ensures RebasedParts([], base) == Ok([]) && AllOk([], |r|)
    ensures Flatten([], r) == Flat(NewElements(r, [], Some(base)))
  {
  }

  lemma RebasedLast(keep: seq<Block>, base: int)
    requires keep != [] && RebasedParts(keep, base).Ok?
    ensures RebasedParts(keep[..|keep| - 1], base).Ok?
    ensures var b := keep[|keep| - 1];
      RebasedParts(keep, base).value ==
      AppendPart(AppendPart(RebasedParts(keep[..|keep| - 1], base).value, Literal(b.prefix + Be16(b.time - base))),
                 Range(b.off + b.tsOff + 2, b.len - b.tsOff - 2))
  {
    hide AppendPart, Be16;
  }

  lemma AllStandInit(r: Bytes, init: seq<Block>, b: Block, ts: nat)
    requires AllStand(r, init + [b], ts)
    ensures AllStand(r, init, ts) && Stands(r, b, ts)
  {
    hide Stands;
    assert b in init + [b];
  }

  lemma RebasedStep(r: Bytes, parts: seq<Part>, init: seq<Block>, b: Block, ts: nat, base: int)
    requires Stands(r, b, ts) && AllOk(parts, |r|) && Flatten(parts, r) == Flat(NewElements(r, init, Some(base)))
    ensures var w := Be16(b.time - base);
      var out := AppendPart(AppendPart(parts, Literal(b.prefix + w)), Range(b.off + b.tsOff + 2, b.len - b.tsOff - 2));
      AllOk(out, |r|) && Flatten(out, r) == Flat(NewElements(r, init + [b], Some(base)))
  {
    hide Stands, ElementOf, PartBytes, PartOk, AppendPart, Flat, Patch, Flatten, AllOk, NewElements, RawOf;
    var w := Be16(b.time - base);
    StandsParts(r, b, ts, w);
    var head, tail := Literal(b.prefix + w), Range(b.off + b.tsOff + 2, b.len - b.tsOff - 2);
    AppendPartAdds(parts, head, r);
    AppendPartAdds(AppendPart(parts, head), tail, r);
    Assoc(Flatten(parts, r), PartBytes(head, r), PartBytes(tail, r));
    NewElementsSnoc(r, init, b, Some(base));
    FlatSnoc(NewElements(r, init, Some(base)), ElementOf(NewRaw(r, b, Some(base))));
  }
}
