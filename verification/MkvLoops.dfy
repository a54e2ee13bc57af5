/** The loops of internal/mkv that read clusters and blocks, each proved to compute its function in
    module Mkv. */
module MkvLoops {
  import opened Basics
  import opened Ebml
  import opened EbmlLoops
  import opened Layouts
  import opened Mkv

  /** The children of b as values. */
  method Kids(b: Bytes) returns (r: Result<seq<Element>>)
    ensures r == Elements(b)
  {
    hide Elements, ToElements;
    assert b[0..|b|] == b;
    var views := Children(Slice(b, 0, |b|));
    match views {
      case Ok(vs) => return Ok(ToElements(vs));
      case Err(x) => return Err(x);
    }
  }

  lemma LastSnoc(es: seq<Element>, i: nat, id: nat)
    requires i < |es|
    ensures LastData(es[..i + 1], id) == if es[i].id == id then Some(es[i].data) else LastData(es[..i], id)
  {
    assert es[..i + 1][..i] == es[..i];
  }

  lemma WholeSeq<T>(s: seq<T>)
    ensures s[..|s|] == s && s[0..] == s && s[|s|..] == []
  {
  }

  /** The values of the last children with IDs a and b, and whether there was one with ID b. */
  method TwoUints(kids: seq<Element>, a: nat, b: nat) returns (x: nat, y: nat, found: bool)
    requires a != b
    ensures x == LastUint(kids, a) && y == LastUint(kids, b) && (found <==> LastData(kids, b).Some?)
  {
    hide LastData, UintOr0;
    x, y, found := 0, 0, false;
    NoData(a);
    NoData(b);
    assert kids[..0] == [];
    for i := 0 to |kids|
      invariant x == LastUint(kids[..i], a) && y == LastUint(kids[..i], b) && (found <==> LastData(kids[..i], b).Some?)
    {
      LastSnoc(kids, i, a);
      LastSnoc(kids, i, b);
      if kids[i].id == a {
        x := UintOr0(kids[i].data);
      } else if kids[i].id == b {
        y := UintOr0(kids[i].data);
        found := true;
      }
    }
    WholeSeq(kids);
  }

  /** The value of the last child with the given ID. */
  method OneUint(kids: seq<Element>, id: nat) returns (v: nat)
    ensures v == LastUint(kids, id)
  {
    hide LastData, UintOr0;
    v := 0;
    NoData(id);
    assert kids[..0] == [];
    for i := 0 to |kids|
      invariant v == LastUint(kids[..i], id)
    {
      LastSnoc(kids, i, id);
      if kids[i].id == id {
        v := UintOr0(kids[i].data);
      }
    }
    WholeSeq(kids);
  }

  lemma NoData(id: nat)
    ensures LastData([], id) == None
  {
  }

  method FindSeek(seekHead: Bytes, want: nat) returns (pos: Option<nat>)
    ensures pos == SeekPosition(seekHead, want)
  {
    hide Elements, LastUint, LastData;
    var seeks := Kids(seekHead);
    if seeks.Err? {
      return None;
    }
    var es := seeks.value;
    WholeSeq(es);
    for i := 0 to |es|
      invariant SeekIn(es, want) == SeekIn(es[i..], want)
    {
      assert es[i..][1..] == es[i + 1..];
      if es[i].id != ID_SEEK {
        continue;
      }
      var kids := Kids(es[i].data);
      if kids.Err? {
        continue;
      }
      var id, p, found := TwoUints(kids.value, ID_SEEK_ID, ID_SEEK_POSITION);
      if id % TWO32 == want && found && p < TWO62 - 1 {
        return Some(p);
      }
    }
    WholeSeq(es);
    return None;
  }

  // ---------------------------------------------------------------- clusters

  /** One source cluster, and what the clip makes of it. */
  class SourceCluster {
    const off: nat
    const end: nat
    var blocksOff: nat
    var timestamp: nat
    var newOffset: int
    var newHeader: Bytes
    var body: seq<Part>
    /** The cluster as it was read. */
    ghost var source: Cluster

    constructor (off: nat, end: nat)
      ensures this.off == off && this.end == end && timestamp == 0 && newOffset == 0 && newHeader == [] && body == []
    {
      this.off, this.end := off, end;
      blocksOff, timestamp, newOffset, newHeader, body := 0, 0, 0, [], [];
      source := Cluster(off, end, 0, 0);
    }

    /** Nothing was changed since the cluster was read. */
    ghost predicate Fresh()
      reads this
    {
      source == Cluster(off, end, blocksOff, timestamp) && newOffset == 0
    }

    ghost function Plan(): Planned
      reads this
    {
      Planned(source, timestamp, body)
    }
  }

  /** readCluster: no cluster and no error when another element is there. */
  method LoadCluster(r: Bytes, off: nat) returns (c: SourceCluster?, err: Option<Error>)
    ensures match err
            case Some(x) => c == null && ReadCluster(r, off) == Err(x)
            case None => ReadCluster(r, off) == Ok(if c == null then None else Some(c.source))
    ensures c != null ==> fresh(c) && c.Fresh()
  {
    hide ReadHeaderAt, ReadAt, UintOr0;
    c := null;
    var header := ReadHeaderAt(r, off);
    if header.Err? {
      return null, Some(header.error);
    }
    var h := header.value;
    if h.id != ID_CLUSTER {
      return null, None;
    }
    if h.size == UNKNOWN_SIZE {
      return null, Some(Unsupported);
    }
    HeaderBounds(r, off);
    var cl := new SourceCluster(off, off + h.headerLen + h.size);
    var gotTime := false;
    var p := off + h.headerLen;
    while p < cl.end
      invariant fresh(cl) && cl.off == off && cl.end == off + h.headerLen + h.size && cl.newOffset == 0
      invariant !gotTime ==> cl.timestamp == 0
      invariant ClusterFrom(r, off, off + h.headerLen, cl.end, None)
             == ClusterFrom(r, off, p, cl.end, if gotTime then Some(cl.timestamp) else None)
      decreases cl.end - p
    {
      var child := ReadHeaderAt(r, p);
      if child.Err? {
        return null, Some(child.error);
      }
      var ch := child.value;
      if ch.size == UNKNOWN_SIZE {
        return null, Some(Unsupported);
      }
      HeaderBounds(r, p);
      if ch.id == ID_TIMESTAMP {
        var b := ReadAt(r, p + ch.headerLen, ch.size);
        if b.Err? {
          return null, Some(b.error);
        }
        cl.timestamp := UintOr0(b.value);
        gotTime := true;
      } else if ch.id == ID_SIMPLE_BLOCK || ch.id == ID_BLOCK_GROUP {
        cl.blocksOff := p;
        if !gotTime {
          return null, Some(Unsupported);
        }
        cl.source := Cluster(cl.off, cl.end, cl.blocksOff, cl.timestamp);
        return cl, None;
      } else if ch.id == ID_ENCRYPTED_BLOCK {
        return null, Some(Unsupported);
      }
      p := p + ch.headerLen + ch.size;
    }
    cl.blocksOff := cl.end;
    cl.source := Cluster(cl.off, cl.end, cl.blocksOff, cl.timestamp);
    return cl, None;
  }

  // ---------------------------------------------------------------- blocks

  /** es[i..] read after the blocks in got. */
  function BlocksAfter(got: seq<Block>, rest: Result<seq<Block>>): Result<seq<Block>> {
    match rest
    case Ok(more) => Ok(got + more)
    case Err(x) => Err(x)
  }

  /** What one element adds to the blocks read. */
  lemma BlockStep(es: seq<Element>, i: nat, off: nat, ts: nat, got: seq<Block>)
    requires Sane(es) && i < |es|
    ensures BlocksAfter(got, BlocksIn(es[i..], off, ts)) ==
      match ParseBlock(es[i], off, ts)
      case Err(x) => Err(x)
      case Ok(b) => BlocksAfter(if b.Some? then got + [b.value] else got, BlocksIn(es[i + 1..], off + |es[i].raw|, ts))
  {
    hide ParseBlock;
    assert es[i..][1..] == es[i + 1..] && es[i..][0] == es[i];
    var b := ParseBlock(es[i], off, ts);
    if b.Ok? && BlocksIn(es[i + 1..], off + |es[i].raw|, ts).Ok? {
      var rest := BlocksIn(es[i + 1..], off + |es[i].raw|, ts).value;
      if b.value.Some? { Assoc(got, [b.value.value], rest); } else { assert [] + rest == rest; }
    }
  }

  lemma NoBlocks(es: seq<Element>, off: nat, ts: nat, got: seq<Block>)
    requires Sane(es)
    ensures BlocksAfter(got, BlocksIn(es[|es|..], off, ts)) == Ok(got)
  {
    assert es[|es|..] == [] && got + [] == got;
  }

  lemma ConsecutiveInit(vs: seq<ElementView>, b: Slice, lo: nat, hi: nat)
    requires vs != [] && AllInside(vs, b) && Consecutive(vs, lo, hi)
    ensures var last := vs[|vs| - 1];
      last.Inside(b) && last.raw.hi == hi && AllInside(vs[..|vs| - 1], b)
        && Consecutive(vs[..|vs| - 1], lo, last.raw.lo)
  {
    if |vs| > 1 { assert vs[|vs| - 2].Inside(b); }
    ConsecutiveUp(vs, b, lo, hi, |vs| - 1);
  }

  lemma {:induction false} ConsecutiveUp(vs: seq<ElementView>, b: Slice, lo: nat, hi: nat, k: nat)
    requires k < |vs| && AllInside(vs, b) && Consecutive(vs, lo, hi)
    ensures lo <= vs[k].raw.lo
  {
    assert vs[k].Inside(b);
    if k > 0 {
      ConsecutiveUp(vs, b, lo, hi, k - 1);
      assert vs[k - 1].Inside(b);
    }
  }

  /** The bytes of consecutive views laid end to end are as long as the stretch they cover. */
  lemma {:induction false} ConsecutiveLength(vs: seq<ElementView>, b: Slice, lo: nat, hi: nat)
    requires AllInside(vs, b) && Consecutive(vs, lo, hi) && b.Valid()
    ensures |Flat(ToElements(vs))| == hi - lo
    decreases |vs|
  {
    hide AllInside, Consecutive, ToElements;
    if vs == [] {
      NothingBetween(b, lo, hi);
    } else {
      var init, last := vs[..|vs| - 1], vs[|vs| - 1];
      ConsecutiveInit(vs, b, lo, hi);
      ConsecutiveLength(init, b, lo, last.raw.lo);
      InitLast(vs);
      ToElementsSnoc(init, last);
      FlatSnoc(ToElements(init), last.ToElement());
    }
  }

  lemma NothingBetween(b: Slice, lo: nat, hi: nat)
    requires Consecutive([], lo, hi)
    ensures lo == hi && ToElements([]) == []
  {
  }

  /** The payload of the last Block of a group as a slice of the cluster's body. */
  predicate IsLastBlock(vs: seq<ElementView>, lo: nat, data: Option<Slice>) {
    match LastPlace(ToElements(vs), ID_BLOCK)
    case None => data.None?
    case Some(p) => data.Some? && data.value.Valid() && data.value.lo == lo + p.0 && data.value.View() == p.1
  }

  lemma LastBlockStep(vs: seq<ElementView>, b: Slice, i: nat, data: Option<Slice>)
    requires b.Valid() && AllInside(vs, b) && Consecutive(vs, b.lo, b.hi) && i < |vs|
      && IsLastBlock(vs[..i], b.lo, data)
    ensures IsLastBlock(vs[..i + 1], b.lo, if vs[i].id == ID_BLOCK then Some(vs[i].data) else data)
  {
    hide AllInside, Consecutive, ToElements, Flat;
    var init, v := vs[..i], vs[i];
    ConsecutivePrefix(vs, b, b.lo, b.hi, i);
    ConsecutiveLength(init, b, b.lo, v.raw.lo);
    assert vs[..i + 1] == init + [v];
    ToElementsSnoc(init, v);
    LastPlaceSnoc(ToElements(init), v.ToElement(), ID_BLOCK);
  }

  lemma LastPlaceSnoc(es: seq<Element>, e: Element, id: nat)
    ensures LastPlace(es + [e], id)
         == if e.id == id && |e.data| <= |e.raw| then Some((|Flat(es)| + |e.raw| - |e.data|, e.data))
           else LastPlace(es, id)
  {
    hide Flat;
    assert (es + [e])[..|es|] == es;
  }

  lemma {:induction false} ConsecutivePrefix(vs: seq<ElementView>, b: Slice, lo: nat, hi: nat, i: nat)
    requires i < |vs| && AllInside(vs, b) && Consecutive(vs, lo, hi)
    ensures vs[i].Inside(b) && AllInside(vs[..i], b) && Consecutive(vs[..i], lo, vs[i].raw.lo)
    decreases |vs|
  {
    hide AllInside, Consecutive;
    ConsecutiveInit(vs, b, lo, hi);
    var n := |vs| - 1;
    if i < n {
      ConsecutivePrefix(vs[..n], b, lo, vs[n].raw.lo, i);
      assert vs[..n][..i] == vs[..i];
    }
  }

  /** The last Block inside a BlockGroup's payload. */
  method LastBlock(data: Slice) returns (r: Result<Option<Slice>>)
    requires data.Valid()
    ensures match Elements(data.View())
            case Err(x) => r == Err(x)
            case Ok(kids) =>
              r.Ok? && match LastPlace(kids, ID_BLOCK)
                       case None => r.value.None?
                       case Some(p) =>
                         && r.value.Some? && r.value.value.Valid() && r.value.value.buf == data.buf
                         && r.value.value.lo == data.lo + p.0 && r.value.value.View() == p.1
  {
    hide Elements, ToElements, LastPlace, IsLastBlock;
    var kids := Children(data);
    if kids.Err? {
      return Err(kids.error);
    }
    var vs := kids.value;
    var last: Option<Slice> := None;
    EmptyGroup(data.lo);
    assert vs[..0] == [];
    for i := 0 to |vs|
      invariant IsLastBlock(vs[..i], data.lo, last)
      invariant last.Some? ==> last.value.buf == data.buf
    {
      LastBlockStep(vs, data, i, last);
      assert vs[i].Inside(data);
      if vs[i].id == ID_BLOCK {
        last := Some(vs[i].data);
      }
    }
    WholeSeq(vs);
    LastBlockMeans(vs, data.lo, last);
    return Ok(last);
  }

  lemma EmptyGroup(lo: nat)
    ensures IsLastBlock([], lo, None)
  {
  }

  lemma LastBlockMeans(vs: seq<ElementView>, lo: nat, data: Option<Slice>)
    requires IsLastBlock(vs, lo, data)
    ensures match LastPlace(ToElements(vs), ID_BLOCK)
            case None => data.None?
            case Some(p) => data.Some? && data.value.Valid() && data.value.lo == lo + p.0 && data.value.View() == p.1
  {
  }

  /** The block that k is; its timestamp is found by subtracting the capacities of two slices of the body. */
  method LoadBlock(k: ElementView, b: Slice, off: nat, ts: nat) returns (r: Result<Option<Block>>)
    requires b.Valid() && k.Inside(b)
    ensures |k.ToElement().data| <= |k.ToElement().raw| && r == ParseBlock(k.ToElement(), off, ts)
  {
    hide Elements, LastPlace, I64, I16, U64, BeVal, DecodeSize;
    var data := k.data;
    if k.id == ID_BLOCK_GROUP {
      var found := LastBlock(k.data);
      if found.Err? {
        return Err(found.error);
      }
      if found.value.None? {
        return Err(Unsupported);
      }
      data := found.value.value;
    } else if k.id == ID_ENCRYPTED_BLOCK {
      return Err(Unsupported);
    } else if k.id != ID_SIMPLE_BLOCK {
      return Ok(None);
    }
    var bytes := data.View();
    var size := ReadSize(bytes);
    if size.Err? || |bytes| < size.value.1 + 3 {
      return Err(Malformed);
    }
    var track, tl := size.value.0, size.value.1;
    TwoBytes(bytes[tl..tl + 2]);
    var rel := I16(BeVal(bytes[tl..tl + 2]));
    var tsOff := k.raw.Cap() - data.Cap() + tl;
    var raw := k.raw.View();
    return Ok(Some(Block(off, |raw|, U64(track), I64(ts) + rel, tsOff, if tsOff <= |raw| then raw[..tsOff] else [])));
  }

  /** readBlocks: the blocks of a cluster, read through slices of its body. */
  method LoadBlocks(r: Bytes, c: SourceCluster) returns (res: Result<seq<Block>>)
    ensures res == ReadBlocks(r, Cluster(c.off, c.end, c.blocksOff, c.timestamp))
  {
    hide Elements, BlocksIn, ToElements, ReadAt, ParseBlock, AllInside, Consecutive, BlocksAfter, Flat, AllElements,
         Sane;
    var body := ReadAt(r, c.blocksOff, c.end - c.blocksOff);
    if body.Err? {
      return Err(body.error);
    }
    var b := Slice(body.value, 0, |body.value|);
    WholeSeq(body.value);
    var kids := Children(b);
    if kids.Err? {
      return Err(kids.error);
    }
    var vs := kids.value;
    ghost var es := ToElements(vs);
    ElementsTile(body.value);
    Views(vs, b);
    ViewCount(vs);
    var out: seq<Block> := [];
    var pos: nat := 0;
    WholeSeq(es);
    BlocksAfterNone(BlocksIn(es, c.blocksOff, c.timestamp));
    for i := 0 to |vs|
      invariant BlocksIn(es, c.blocksOff, c.timestamp) ==
        BlocksAfter(out, BlocksIn(es[i..], c.blocksOff + pos, c.timestamp))
    {
      BlockStep(es, i, c.blocksOff + pos, c.timestamp, out);
      ElementOfView(vs, b, i);
      var block := LoadBlock(vs[i], b, c.blocksOff + pos, c.timestamp);
      if block.Err? {
        return Err(block.error);
      }
      if block.value.Some? {
        out := out + [block.value.value];
      }
      pos := pos + |vs[i].raw.View()|;
    }
    NoBlocks(es, c.blocksOff + pos, c.timestamp, out);
    return Ok(out);
  }

  lemma BlocksAfterNone(rest: Result<seq<Block>>)
    ensures BlocksAfter([], rest) == rest
  {
    if rest.Ok? { assert [] + rest.value == rest.value; }
  }

  lemma ElementOfView(vs: seq<ElementView>, b: Slice, i: nat)
    requires i < |vs| && AllInside(vs, b)
    ensures |ToElements(vs)| == |vs| && ToElements(vs)[i] == vs[i].ToElement() && vs[i].Inside(b)
  {
  }

  lemma ViewCount(vs: seq<ElementView>)
    ensures |ToElements(vs)| == |vs|
  {
  }

  lemma Views(vs: seq<ElementView>, b: Slice)
    requires b.Valid() && AllInside(vs, b)
    ensures Sane(ToElements(vs))
  {
    forall i | 0 <= i < |vs|
      ensures |vs[i].data.View()| <= |vs[i].raw.View()|
    {
      assert vs[i].Inside(b);
    }
  }

  // ---------------------------------------------------------------- parts

  method RangeParts(blocks: seq<Block>) returns (parts: seq<Part>)
    ensures parts == BlockParts(blocks)
  {
    hide AppendPart;
    var list := new PartList();
    assert blocks[..0] == [];
    for i := 0 to |blocks|
      invariant list.parts == BlockParts(blocks[..i])
    {
      assert blocks[..i + 1][..i] == blocks[..i];
      list.Append(Range(blocks[i].off, blocks[i].len));
    }
    WholeSeq(blocks);
    parts := list.parts;
  }

  lemma {:induction false} RebasedFails(blocks: seq<Block>, base: int, i: nat)
    requires i < |blocks| && (blocks[i].time - base < -32768 || blocks[i].time - base > 32767)
    requires RebasedParts(blocks[..i], base).Ok?
    ensures RebasedParts(blocks, base) == Err(Unsupported)
  {
    hide AppendPart;
    var n := |blocks| - 1;
    if i < n {
      assert blocks[..n][..i] == blocks[..i];
      RebasedFails(blocks[..n], base, i);
    }
  }

  method RebaseParts(blocks: seq<Block>, base: int) returns (r: Result<seq<Part>>)
    ensures r == RebasedParts(blocks, base)
  {
    hide AppendPart, Be16;
    var list := new PartList();
    assert blocks[..0] == [];
    for i := 0 to |blocks|
      invariant RebasedParts(blocks[..i], base) == Ok(list.parts)
    {
      var b := blocks[i];
      var rel := b.time - base;
      if rel < -32768 || rel > 32767 {
        RebasedFails(blocks, base, i);
        return Err(Unsupported);
      }
      assert blocks[..i + 1][..i] == blocks[..i];
      list.Append(Literal(b.prefix + Be16(rel)));
      list.Append(Range(b.off + b.tsOff + 2, b.len - b.tsOff - 2));
    }
    WholeSeq(blocks);
    return Ok(list.parts);
  }

  method PartsLen(parts: seq<Part>) returns (n: int)
    ensures n == Total(parts)
  {
    n := 0;
    assert parts[..0] == [];
    for i := 0 to |parts|
      invariant n == Total(parts[..i])
    {
      assert parts[..i + 1][..i] == parts[..i];
      n := n + parts[i].len;
    }
    WholeSeq(parts);
  }

  // ---------------------------------------------------------------- choosing blocks

  method FilterFrom(blocks: seq<Block>, video: nat, keyTime: int) returns (out: seq<Block>)
    ensures out == KeepFrom(blocks, video, keyTime)
  {
    hide NotBefore;
    KeyIndexInside(blocks, video, keyTime, 0);
    var start := 0;
    for i := 0 to |blocks|
      invariant start == 0 && KeyIndex(blocks, video, keyTime, 0) == KeyIndex(blocks, video, keyTime, i)
    {
      if blocks[i].track == video && blocks[i].time == keyTime {
        start := i;
        break;
      }
    }
    assert start == KeyIndex(blocks, video, keyTime, 0);
    ghost var all := NotBefore(blocks[start..], keyTime);
    out := [];
    for i := start to |blocks|
      invariant all == out + NotBefore(blocks[i..], keyTime)
    {
      FromStep(blocks, i, keyTime, out);
      if blocks[i].time >= keyTime {
        out := out + [blocks[i]];
      }
    }
    FromEnd(blocks, keyTime, out);
  }

  lemma FromStep(blocks: seq<Block>, i: nat, t: int, out: seq<Block>)
    requires i < |blocks|
    ensures out + NotBefore(blocks[i..], t) ==
      (if blocks[i].time >= t then out + [blocks[i]] else out) + NotBefore(blocks[i + 1..], t)
  {
    var rest := NotBefore(blocks[i + 1..], t);
    assert blocks[i..][1..] == blocks[i + 1..];
    if blocks[i].time >= t {
      assert NotBefore(blocks[i..], t) == [blocks[i]] + rest;
      Assoc(out, [blocks[i]], rest);
    } else {
      assert NotBefore(blocks[i..], t) == [] + rest == rest;
    }
  }

  lemma FromEnd(blocks: seq<Block>, t: int, out: seq<Block>)
    ensures out + NotBefore(blocks[|blocks|..], t) == out
  {
  }

  method FilterUntil(blocks: seq<Block>, video: nat, endT: int) returns (out: seq<Block>)
    ensures out == KeepUntil(blocks, video, endT, false)
  {
    out := [];
    var videoDone := false;
    WholeSeq(blocks);
    for i := 0 to |blocks|
      invariant KeepUntil(blocks, video, endT, false) == out + KeepUntil(blocks[i..], video, endT, videoDone)
    {
      UntilStep(blocks, i, video, endT, videoDone, out);
      var b := blocks[i];
      if b.track == video {
        if videoDone || b.time >= endT {
          videoDone := true;
          continue;
        }
      } else if b.time >= endT {
        continue;
      }
      out := out + [b];
    }
    assert blocks[|blocks|..] == [] && out + [] == out;
  }

  lemma UntilStep(blocks: seq<Block>, i: nat, video: nat, endT: int, done: bool, out: seq<Block>)
    requires i < |blocks|
    ensures var b := blocks[i]; var done' := done || (b.track == video && b.time >= endT);
      out + KeepUntil(blocks[i..], video, endT, done)
        == (if (if b.track == video then !done' else b.time < endT) then out + [b] else out)
           + KeepUntil(blocks[i + 1..], video, endT, done')
  {
    var b := blocks[i];
    var rest := KeepUntil(blocks[i + 1..], video, endT, done || (b.track == video && b.time >= endT));
    assert blocks[i..][1..] == blocks[i + 1..];
    Assoc(out, [b], rest);
    assert [] + rest == rest;
  }
}
