/** Blocks under a changed cluster: moving a block, and rewriting its two timestamp bytes. */
module MkvBlocks {
  import opened Basics
  import opened Ebml
  import opened Mkv

  // ---------------------------------------------------------------- where a block's data lies

  predicate Lacks(es: seq<Element>, id: nat) {
    forall i :: 0 <= i < |es| ==> es[i].id != id
  }

  /** The last element with an ID splits the list; its payload stands where LastPlace says. */
  lemma {:induction false} LastPlaceOf(es: seq<Element>, id: nat) returns (a: seq<Element>, k: Element, b: seq<Element>)
    requires LastPlace(es, id).Some? && forall i :: 0 <= i < |es| ==> |es[i].data| <= |es[i].raw|
    ensures es == a + [k] + b && k.id == id && Lacks(b, id) && |k.data| <= |k.raw|
    ensures LastPlace(es, id) == Some((|Flat(a)| + |k.raw| - |k.data|, k.data))
  {
    var n := |es| - 1;
    var e := es[n];
    InitLast(es);
    hide Flat;
    if e.id == id {
      a, k, b := es[..n], e, [];
    } else {
      a, k, b := LastPlaceOf(es[..n], id);
      Assoc(a + [k], b, [e]);
      b := b + [e];
    }
  }

  lemma {:induction false} LastPlaceIn(a: seq<Element>, k: Element, b: seq<Element>)
    requires |k.data| <= |k.raw| && Lacks(b, k.id)
    ensures LastPlace(a + [k] + b, k.id) == Some((|Flat(a)| + |k.raw| - |k.data|, k.data))
  {
    var es := a + [k] + b;
    if b == [] {
      assert es[..|es| - 1] == a;
    } else {
      assert es[..|es| - 1] == a + [k] + b[..|b| - 1];
      LastPlaceIn(a, k, b[..|b| - 1]);
    }
  }

  /** s with the two bytes at x replaced by w. */
  function Patch(s: Bytes, x: nat, w: Bytes): (t: Bytes)
    requires x + 2 <= |s| && |w| == 2
    ensures |t| == |s|
  {
    s[..x] + w + s[x + 2..]
  }

  /** e with two payload bytes replaced. */
  function PatchElement(e: Element, x: nat, w: Bytes): Element
    requires |e.data| <= |e.raw| && |e.raw| - |e.data| <= x && x + 2 <= |e.raw| && |w| == 2
  {
    Element(e.id, Patch(e.data, x - (|e.raw| - |e.data|), w), Patch(e.raw, x, w))
  }

  lemma PatchTail(s: Bytes, h: nat, x: nat, w: Bytes)
    requires h <= x && x + 2 <= |s| && |w| == 2
    ensures Patch(s, x, w)[..h] == s[..h]
    ensures Patch(s, x, w)[h..] == Patch(s[h..], x - h, w)
    ensures Patch(s, x, w)[..x] == s[..x] && Patch(s, x, w)[x..x + 2] == w && Patch(s, x, w)[x + 2..] == s[x + 2..]
  {
  }

  lemma PatchedIsElement(e: Element, x: nat, w: Bytes)
    requires IsElement(e) && |e.raw| - |e.data| <= x && x + 2 <= |e.raw| && |w| == 2
    ensures IsElement(PatchElement(e, x, w)) && PatchElement(e, x, w).raw == Patch(e.raw, x, w)
  {
    hide ParseHeader, Patch;
    var h := |e.raw| - |e.data|;
    PatchTail(e.raw, h, x, w);
    HeaderStable(e.raw, Patch(e.raw, x, w));
  }

  lemma PatchFlat(a: Bytes, s: Bytes, b: Bytes, x: nat, w: Bytes)
    requires x + 2 <= |s| && |w| == 2
    ensures Patch(a + s + b, |a| + x, w) == a + Patch(s, x, w) + b
  {
  }

  /** Replacing two bytes inside the payload of a group's last Block replaces them in that child alone. */
  lemma PatchedGroup(data: Bytes, id: nat, at: nat, block: Bytes, y: nat, w: Bytes)
    requires Elements(data).Ok? && LastPlace(Elements(data).value, id) == Some((at, block))
    requires y + 2 <= |block| && |w| == 2
    ensures at + |block| <= |data| && Elements(Patch(data, at + y, w)).Ok?
    ensures LastPlace(Elements(Patch(data, at + y, w)).value, id) == Some((at, Patch(block, y, w)))
  {
    hide *;
    var a, k, b := GroupOf(data, id);
    var k' := PatchElement(k, |k.raw| - |k.data| + y, w);
    PatchedParts(k, y, w);
    PatchedFlat(a, k, b, |k.raw| - |k.data| + y, w);
    ElementsOfFlat(a + [k'] + b);
    LastPlaceIn(a, k', b);
  }

  lemma PatchedFlat(a: seq<Element>, k: Element, b: seq<Element>, x: nat, w: Bytes)
    requires AllElements(a + [k] + b) && IsElement(k) && |k.raw| - |k.data| <= x && x + 2 <= |k.raw| && |w| == 2
    ensures AllElements(a + [PatchElement(k, x, w)] + b)
    ensures Flat(a + [PatchElement(k, x, w)] + b) == Patch(Flat(a) + k.raw + Flat(b), |Flat(a)| + x, w)
  {
    hide *;
    ElementTail(k);
    var k' := PatchElement(k, x, w);
    PatchedIsElement(k, x, w);
    PatchFlat(Flat(a), k.raw, Flat(b), x, w);
    FlatOfThree(a, k', b);
    Swapped(a, k, b, k');
  }

  lemma SanePayloads(es: seq<Element>)
    requires AllElements(es)
    ensures forall i :: 0 <= i < |es| ==> |es[i].data| <= |es[i].raw|
  {
    assert forall i :: 0 <= i < |es| ==> IsElement(es[i]);
  }

  lemma Member(a: seq<Element>, k: Element, b: seq<Element>)
    requires AllElements(a + [k] + b)
    ensures IsElement(k)
  {
    assert (a + [k] + b)[|a|] == k;
  }

  lemma PatchedParts(k: Element, y: nat, w: Bytes)
    requires |k.data| <= |k.raw| && y + 2 <= |k.data| && |w| == 2
    ensures var k' := PatchElement(k, |k.raw| - |k.data| + y, w);
      k'.id == k.id && k'.data == Patch(k.data, y, w) && |k'.raw| == |k.raw| && |k'.data| == |k.data|
  {
  }

  /** A buffer of elements around the last one with the given ID. */
  lemma GroupOf(data: Bytes, id: nat) returns (a: seq<Element>, k: Element, b: seq<Element>)
    requires Elements(data).Ok? && LastPlace(Elements(data).value, id).Some?
    ensures AllElements(a + [k] + b) && IsElement(k) && k.id == id && Lacks(b, id) && |k.data| <= |k.raw|
    ensures data == Flat(a) + k.raw + Flat(b)
    ensures LastPlace(Elements(data).value, id) == Some((|Flat(a)| + |k.raw| - |k.data|, k.data))
  {
    hide *;
    var es := Elements(data).value;
    ElementsTile(data);
    SanePayloads(es);
    a, k, b := LastPlaceOf(es, id);
    Member(a, k, b);
    FlatOfThree(a, k, b);
  }

  lemma Swapped(a: seq<Element>, k: Element, b: seq<Element>, k': Element)
    requires AllElements(a + [k] + b) && IsElement(k')
    ensures AllElements(a + [k'] + b)
  {
    hide IsElement;
    forall i | 0 <= i < |a| + 1 + |b|
      ensures IsElement((a + [k'] + b)[i])
    {
      assert IsElement((a + [k] + b)[i]);
    }
  }

  lemma FlatOfThree(a: seq<Element>, k: Element, b: seq<Element>)
    ensures Flat(a + [k] + b) == Flat(a) + k.raw + Flat(b)
  {
    FlatConcat(a + [k], b);
    FlatConcat(a, [k]);
    assert Flat([k]) == k.raw + [];
  }

  lemma InTheMiddle(a: Bytes, s: Bytes, b: Bytes, h: nat)
    requires h <= |s|
    ensures |a| + |s| <= |a + s + b| && (a + s + b)[|a| + h..|a| + |s|] == s[h..]
  {
  }

  // ---------------------------------------------------------------- one block

  /** The block payload found by BlockData lies in the element's raw bytes where it says. */
  lemma BlockDataPlace(e: Element)
    requires IsElement(e) && |e.data| <= |e.raw| && BlockData(e).Ok?
    ensures var (at, data) := BlockData(e).value;
      |e.raw| - |e.data| <= at && at + |data| <= |e.raw| && e.raw[at..at + |data|] == data
  {
    hide *;
    var h := |e.raw| - |e.data|;
    ElementTail(e);
    if e.id == ID_SIMPLE_BLOCK {
      SimpleData(e);
    } else {
      var p, block := GroupData(e);
      var a, k, b := GroupOf(e.data, ID_BLOCK);
      InTheMiddle(Flat(a), k.raw, Flat(b), |k.raw| - |k.data|);
      ElementTail(k);
      SubSlice(e.raw, h, |e.raw|, p, p + |block|);
    }
  }

  lemma ElementTail(e: Element)
    requires IsElement(e)
    ensures |e.data| <= |e.raw| && e.raw[|e.raw| - |e.data|..|e.raw|] == e.data && e.raw[|e.raw| - |e.data|..] == e.data
  {
  }

  /** What ParseBlock found inside e. */
  lemma BlockParsed(e: Element, off: nat, ts: nat) returns (at: nat, data: Bytes, track: int, tl: nat)
    requires IsElement(e) && |e.data| <= |e.raw| && ParseBlock(e, off, ts).Ok? && ParseBlock(e, off, ts).value.Some?
    ensures BlockData(e) == Ok((at, data)) && DecodeSize(data) == Ok((track, tl)) && tl + 3 <= |data|
    ensures |e.data| <= |e.raw| && 1 <= tl && |e.raw| - |e.data| <= at && at + |data| <= |e.raw|
      && e.raw[at..at + |data|] == data
    ensures BeVal(data[tl..tl + 2]) < 65536 && (e.id == ID_SIMPLE_BLOCK || e.id == ID_BLOCK_GROUP)
    ensures ParseBlock(e, off, ts).value.value ==
      Block(off, |e.raw|, U64(track), I64(ts) + I16(BeVal(data[tl..tl + 2])), at + tl, e.raw[..at + tl])
  {
    hide ParseHeader, Elements, DecodeSize, BlockData, BeVal, U64, I64, I16;
    at, data := BlockData(e).value.0, BlockData(e).value.1;
    track, tl := DecodeSize(data).value.0, DecodeSize(data).value.1;
    BlockDataPlace(e);
    DecodeSizeShape(data, tl);
    TwoBytes(data[tl..tl + 2]);
  }

  lemma BlockAssembled(e: Element, off: nat, ts: nat, at: nat, data: Bytes, track: int, tl: nat)
    requires |e.data| <= |e.raw| && (e.id == ID_SIMPLE_BLOCK || e.id == ID_BLOCK_GROUP)
    requires BlockData(e) == Ok((at, data)) && DecodeSize(data) == Ok((track, tl)) && tl + 3 <= |data|
    requires at + |data| <= |e.raw|
    ensures BeVal(data[tl..tl + 2]) < 65536
    ensures ParseBlock(e, off, ts) ==
      Ok(Some(Block(off, |e.raw|, U64(track), I64(ts) + I16(BeVal(data[tl..tl + 2])), at + tl, e.raw[..at + tl])))
  {
    hide ParseHeader, Elements, DecodeSize, BlockData, BeVal, U64, I64, I16;
    TwoBytes(data[tl..tl + 2]);
  }

  /** tsOff is where the two timestamp bytes are: the block's time comes from exactly them. */
  lemma TimestampPlace(e: Element, off: nat, ts: nat, b: Block)
    requires IsElement(e) && |e.data| <= |e.raw| && ParseBlock(e, off, ts) == Ok(Some(b))
    ensures b.off == off && b.len == |e.raw| && |e.raw| - |e.data| < b.tsOff && b.tsOff + 3 <= |e.raw|
    ensures b.prefix == e.raw[..b.tsOff] && (e.id == ID_SIMPLE_BLOCK || e.id == ID_BLOCK_GROUP)
    ensures BeVal(e.raw[b.tsOff..b.tsOff + 2]) < 65536 && b.time == I64(ts) + I16(BeVal(e.raw[b.tsOff..b.tsOff + 2]))
  {
    hide *;
    var at, data, track, tl := BlockParsed(e, off, ts);
    SubSlice(e.raw, at, at + |data|, tl, tl + 2);
  }

  /** A block read under another cluster differs only in its offset and in its time. */
  lemma MovedBlock(e: Element, off: nat, ts: nat, off': nat, ts': nat)
    requires |e.data| <= |e.raw|
    ensures ParseBlock(e, off', ts') ==
      match ParseBlock(e, off, ts)
      case Err(x) => Err(x)
      case Ok(None) => Ok(None)
      case Ok(Some(b)) => Ok(Some(b.(off := off', time := b.time - I64(ts) + I64(ts'))))
  {
    hide BlockData, DecodeSize, BeVal, I64, I16, U64;
  }

  /** A block whose two timestamp bytes are replaced is the same block at another time. */
  lemma PatchedBlock(e: Element, off: nat, ts: nat, b: Block, w: Bytes, off': nat, ts': nat)
    requires IsElement(e) && |e.data| <= |e.raw| && ParseBlock(e, off, ts) == Ok(Some(b)) && |w| == 2
    ensures |e.raw| - |e.data| <= b.tsOff && b.tsOff + 2 <= |e.raw| && BeVal(w) < 65536
    ensures IsElement(PatchElement(e, b.tsOff, w))
    ensures |PatchElement(e, b.tsOff, w).data| <= |PatchElement(e, b.tsOff, w).raw|
    ensures ParseBlock(PatchElement(e, b.tsOff, w), off', ts') ==
      Ok(Some(b.(off := off', time := I64(ts') + I16(BeVal(w)))))
  {
    hide *;
    var at, data, track, tl := BlockParsed(e, off, ts);
    var x := at + tl;
    PatchedIsElement(e, x, w);
    var e' := PatchElement(e, x, w);
    PatchedSizes(e, x, w);
    PatchedBlockData(e, at, data, tl, w);
    PatchTail(data, tl, tl, w);
    SizeStable(data, Patch(data, tl, w), tl);
    PatchTail(e.raw, x, x, w);
    BlockAssembled(e', off', ts', at, Patch(data, tl, w), track, tl);
  }

  lemma PatchedSizes(e: Element, x: nat, w: Bytes)
    requires |e.data| <= |e.raw| && |e.raw| - |e.data| <= x && x + 2 <= |e.raw| && |w| == 2
    ensures var e' := PatchElement(e, x, w);
      e'.id == e.id && |e'.data| == |e.data| && |e'.raw| == |e.raw|
      && e'.raw == Patch(e.raw, x, w) && e'.data == Patch(e.data, x - (|e.raw| - |e.data|), w)
  {
  }

  lemma PatchedBlockData(e: Element, at: nat, data: Bytes, tl: nat, w: Bytes)
    requires IsElement(e) && |e.data| <= |e.raw| && BlockData(e) == Ok((at, data)) && tl + 2 <= |data| && |w| == 2
    requires |e.raw| - |e.data| <= at && at + |data| <= |e.raw|
    ensures |PatchElement(e, at + tl, w).data| <= |PatchElement(e, at + tl, w).raw|
    ensures BlockData(PatchElement(e, at + tl, w)) == Ok((at, Patch(data, tl, w)))
  {
    hide *;
    PatchedSizes(e, at + tl, w);
    var e' := PatchElement(e, at + tl, w);
    if e.id == ID_SIMPLE_BLOCK {
      SimpleData(e);
      SimpleData(e');
    } else {
      var p, block := GroupData(e);
      PatchedGroup(e.data, ID_BLOCK, p, block, tl, w);
      GroupDataIs(e', p, Patch(block, tl, w));
    }
  }

  lemma SimpleData(e: Element)
    requires |e.data| <= |e.raw| && e.id == ID_SIMPLE_BLOCK
    ensures BlockData(e) == Ok((|e.raw| - |e.data|, e.data))
  {
  }

  lemma GroupData(e: Element) returns (at: nat, block: Bytes)
    requires |e.data| <= |e.raw| && e.id != ID_SIMPLE_BLOCK && BlockData(e).Ok?
    ensures Elements(e.data).Ok? && LastPlace(Elements(e.data).value, ID_BLOCK) == Some((at, block))
    ensures BlockData(e) == Ok((|e.raw| - |e.data| + at, block))
  {
    hide Elements, LastPlace;
    at, block := BlockData(e).value.0 - (|e.raw| - |e.data|), BlockData(e).value.1;
  }

  lemma GroupDataIs(e: Element, at: nat, block: Bytes)
    requires |e.data| <= |e.raw| && e.id != ID_SIMPLE_BLOCK
    requires Elements(e.data).Ok? && LastPlace(Elements(e.data).value, ID_BLOCK) == Some((at, block))
    ensures BlockData(e) == Ok((|e.raw| - |e.data| + at, block))
  {
    hide Elements, LastPlace;
  }

  lemma Be16Value(v: int)
    requires -32768 <= v <= 32767
    ensures |Be16(v)| == 2 && BeVal(Be16(v)) < 65536 && I16(BeVal(Be16(v))) == v
  {
    var s := Be16(v);
    BeValStep(s, 0);
    BeValStep(s, 1);
    assert s[..2] == s;
    if v >= 0 { assert U64(v) == v; } else { assert U64(v) == v + TWO64; }
  }
}
