/** A virtual file as literal bytes and byte ranges of a data file (internal/layout). */
module Layouts {
  import opened Basics

  /** Literal bytes, or the range [off, off + len) of the data file when data is None. */
  datatype Part = Part(data: Option<Bytes>, off: int, len: int)

  function Literal(b: Bytes): Part { Part(Some(b), 0, |b|) }

  function Range(off: int, n: int): Part { Part(None, off, n) }

  /** What Finalize demands of a part over a data file of the given size. */
  predicate PartOk(p: Part, dataSize: int) {
    match p.data
    case Some(d) => |d| == p.len
    case None => p.len > 0 && p.off >= 0 && p.off + p.len <= dataSize
  }

  predicate AllOk(parts: seq<Part>, dataSize: int) {
    forall i :: 0 <= i < |parts| ==> PartOk(parts[i], dataSize)
  }

  function PartBytes(p: Part, file: Bytes): Bytes {
    match p.data
    case Some(d) => d
    case None => if 0 <= p.off && 0 <= p.len && p.off + p.len <= |file| then file[p.off..p.off + p.len] else []
  }

  /** The virtual file: its parts' bytes end to end. */
  function Flatten(parts: seq<Part>, file: Bytes): Bytes {
    if parts == [] then [] else Flatten(parts[..|parts| - 1], file) + PartBytes(parts[|parts| - 1], file)
  }

  function Total(parts: seq<Part>): int {
    if parts == [] then 0 else Total(parts[..|parts| - 1]) + parts[|parts| - 1].len
  }

  lemma {:induction false} FlattenLength(parts: seq<Part>, file: Bytes)
    requires AllOk(parts, |file|)
    ensures |Flatten(parts, file)| == Total(parts)
  {
    if parts != [] {
      FlattenLength(parts[..|parts| - 1], file);
    }
  }

  lemma {:induction false} FlattenConcat(a: seq<Part>, b: seq<Part>, file: Bytes)
    ensures Flatten(a + b, file) == Flatten(a, file) + Flatten(b, file)
    ensures Total(a + b) == Total(a) + Total(b)
  {
    if b == [] {
      assert a + b == a;
    } else {
      var k := |b| - 1;
      assert (a + b)[..|a + b| - 1] == a + b[..k];
      FlattenConcat(a, b[..k], file);
      Assoc(Flatten(a, file), Flatten(b[..k], file), PartBytes(b[k], file));
    }
  }

  /** Part i of the virtual file starts where the parts before it end. */
  lemma PartPlace(parts: seq<Part>, i: nat, file: Bytes)
    requires i < |parts| && AllOk(parts, |file|)
    ensures 0 <= Total(parts[..i]) <= Total(parts[..i + 1]) ==
      Total(parts[..i]) + parts[i].len <= |Flatten(parts, file)|
    ensures Flatten(parts, file)[Total(parts[..i])..Total(parts[..i + 1])] == PartBytes(parts[i], file)
  {
    var a, b, c := parts[..i], [parts[i]], parts[i + 1..];
    var flat, x, y, z := Flatten(parts, file), Flatten(a, file), PartBytes(parts[i], file), Flatten(c, file);
    assert flat == x + y + z by {
      assert parts == (a + b) + c;
      FlattenConcat(a + b, c, file);
      FlattenConcat(a, b, file);
      assert b[..0] == [];
      assert Flatten(b, file) == [] + y == y;
    }
    assert Total(parts[..i + 1]) == Total(a) + parts[i].len by {
      assert parts[..i + 1][..i] == a;
    }
    FlattenLength(a, file);
    assert |y| == parts[i].len;
    assert (x + y + z)[|x|..|x| + |y|] == y;
  }

  // ---------------------------------------------------------------- appending parts

  predicate Mergeable(a: Part, b: Part) {
    || (a.data.None? && b.data.None? && a.off + a.len == b.off)
    || (a.data.Some? && b.data.Some?)
  }

  function Merge(a: Part, b: Part): Part {
    match (a.data, b.data)
    case (Some(x), Some(y)) => Part(Some(x + y), a.off, a.len + b.len)
    case _ => a.(len := a.len + b.len)
  }

  function AppendPart(parts: seq<Part>, p: Part): seq<Part> {
    if p.len == 0 then parts
    else if parts != [] && Mergeable(parts[|parts| - 1], p) then
      parts[..|parts| - 1] + [Merge(parts[|parts| - 1], p)]
    else parts + [p]
  }

  function AppendAll(parts: seq<Part>, more: seq<Part>): seq<Part> {
    if more == [] then parts else AppendPart(AppendAll(parts, more[..|more| - 1]), more[|more| - 1])
  }

  /** A part worth appending: it passes Finalize or is empty. */
  predicate Appendable(p: Part, dataSize: int) {
    PartOk(p, dataSize) || p == Range(p.off, 0)
  }

  /** No part is empty and no two neighbours could be one part. */
  predicate Compact(parts: seq<Part>) {
    && (forall i :: 0 <= i < |parts| ==> parts[i].len != 0)
    && (forall i :: 0 < i < |parts| ==> !Mergeable(parts[i - 1], parts[i]))
  }

  lemma MergeLastAdds(parts: seq<Part>, p: Part, file: Bytes)
    requires AllOk(parts, |file|) && PartOk(p, |file|) && parts != [] && Mergeable(parts[|parts| - 1], p)
    ensures var out := parts[..|parts| - 1] + [Merge(parts[|parts| - 1], p)];
      && AllOk(out, |file|) && Total(out) == Total(parts) + p.len
      && Flatten(out, file) == Flatten(parts, file) + PartBytes(p, file)
  {
    var k := |parts| - 1;
    MergeAdds(parts[k], p, file);
    ReplaceLast(parts[..k], parts[k], file);
    ReplaceLast(parts[..k], Merge(parts[k], p), file);
    assert parts[..k] + [parts[k]] == parts;
    Assoc(Flatten(parts[..k], file), PartBytes(parts[k], file), PartBytes(p, file));
  }

  /** Appending adds exactly the part's bytes, and keeps a list valid. */
  lemma AppendPartAdds(parts: seq<Part>, p: Part, file: Bytes)
    requires AllOk(parts, |file|) && Appendable(p, |file|)
    ensures AllOk(AppendPart(parts, p), |file|)
    ensures Flatten(AppendPart(parts, p), file) == Flatten(parts, file) + PartBytes(p, file)
    ensures Total(AppendPart(parts, p)) == Total(parts) + p.len
  {
    hide Flatten, Total, Merge, Mergeable;
    if p.len == 0 {
      assert PartBytes(p, file) == [];
    } else if parts != [] && Mergeable(parts[|parts| - 1], p) {
      MergeLastAdds(parts, p, file);
    } else {
      ReplaceLast(parts, p, file);
    }
  }

  lemma AppendPartCompact(parts: seq<Part>, p: Part, dataSize: int)
    requires Compact(parts) && AllOk(parts, dataSize) && Appendable(p, dataSize)
    ensures Compact(AppendPart(parts, p))
  {
    if p.len != 0 && parts != [] && Mergeable(parts[|parts| - 1], p) {
      MergeAdds(parts[|parts| - 1], p, seq(if dataSize < 0 then 0 else dataSize, _ => 0));
    }
  }

  lemma ReplaceLast(init: seq<Part>, p: Part, file: Bytes)
    ensures Flatten(init + [p], file) == Flatten(init, file) + PartBytes(p, file)
    ensures Total(init + [p]) == Total(init) + p.len
  {
    assert (init + [p])[..|init|] == init;
  }

  lemma MergeAdds(a: Part, b: Part, file: Bytes)
    requires PartOk(a, |file|) && PartOk(b, |file|) && Mergeable(a, b)
    ensures PartOk(Merge(a, b), |file|) && PartBytes(Merge(a, b), file) == PartBytes(a, file) + PartBytes(b, file)
    ensures forall c: Part :: Mergeable(c, a) <==> Mergeable(c, Merge(a, b))
  {
  }

  predicate AllAppendable(ps: seq<Part>, dataSize: int) {
    forall i :: 0 <= i < |ps| ==> Appendable(ps[i], dataSize)
  }

  lemma {:induction false} AppendAllAdds(parts: seq<Part>, more: seq<Part>, file: Bytes)
    requires AllOk(parts, |file|) && AllAppendable(more, |file|)
    ensures AllOk(AppendAll(parts, more), |file|)
    ensures Flatten(AppendAll(parts, more), file) == Flatten(parts, file) + Flatten(more, file)
  {
    if more != [] {
      var init, last := more[..|more| - 1], more[|more| - 1];
      assert AllAppendable(init, |file|) && Appendable(last, |file|);
      hide AppendPart, AllOk, PartBytes, Total, Appendable;
      AppendAllAdds(parts, init, file);
      var out := AppendAll(parts, init);
      AppendPartAdds(out, last, file);
      Assoc(Flatten(parts, file), Flatten(init, file), PartBytes(last, file));
    }
  }

  lemma {:induction false} AppendAllCompact(parts: seq<Part>, more: seq<Part>, file: Bytes)
    requires Compact(parts) && AllOk(parts, |file|) && AllAppendable(more, |file|)
    ensures Compact(AppendAll(parts, more))
  {
    if more != [] {
      var k := |more| - 1;
      hide AppendPart, Compact, AllOk;
      AppendAllCompact(parts, more[..k], file);
      AppendAllAdds(parts, more[..k], file);
      AppendPartCompact(AppendAll(parts, more[..k]), more[k], |file|);
    }
  }

  /** The growing slice of parts that Append extends in place. */
  class PartList {
    var parts: seq<Part>

    constructor ()
      ensures parts == []
    {
      parts := [];
    }

    method Append(p: Part)
      modifies this
      ensures parts == AppendPart(old(parts), p)
    {
      if p.len == 0 {
        return;
      }
      var k := |parts| - 1;
      if k >= 0 {
        var last := parts[k];
        if p.data.None? && last.data.None? && last.off + last.len == p.off {
          parts := parts[..k] + [last.(len := last.len + p.len)];
          return;
        }
        if p.data.Some? && last.data.Some? {
          parts := parts[..k] + [last.(data := Some(last.data.value + p.data.value), len := last.len + p.len)];
          return;
        }
      }
      parts := parts + [p];
    }
  }

  // ---------------------------------------------------------------- serving a layout

  datatype IoError = NoError | EOF | UnexpectedEOF | Fault

  /** A data file with the given content. Each read gives some of the bytes it was asked for, with whatever
      error or none; all of them when the file is intact. */
  class DataFile {
    const content: Bytes
    const intact: bool

    constructor (content: Bytes, intact: bool)
      ensures this.content == content && this.intact == intact
    {
      this.content, this.intact := content, intact;
    }

    method ReadAt(dst: array<byte>, lo: nat, hi: nat, off: nat) returns (got: nat, err: IoError)
      requires lo <= hi <= dst.Length && off + (hi - lo) <= |content|
      modifies dst
      ensures got <= hi - lo && (intact ==> got == hi - lo)
      ensures dst[..] == old(dst[..lo]) + content[off..off + got] + old(dst[lo + got..])
    {
      got :| 0 <= got <= hi - lo && (intact ==> got == hi - lo);
      err :| err in {NoError, EOF, UnexpectedEOF, Fault};
      forall i | 0 <= i < got {
        dst[lo + i] := content[off + i];
      }
    }
  }

  /** offsets lists where each part starts. */
  predicate Starts(offsets: seq<int>, parts: seq<Part>) {
    && |offsets| == |parts|
    && forall i :: 0 <= i < |parts| ==> offsets[i] == Total(parts[..i])
  }

  class Layout {
    const dataSize: int
    var size: int
    var parts: seq<Part>
    var offsets: seq<int>

    constructor (dataSize: int, size: int, parts: seq<Part>)
      ensures this.dataSize == dataSize && this.size == size && this.parts == parts
    {
      this.dataSize, this.size, this.parts := dataSize, size, parts;
      offsets := [];
    }

    /** The read index is in place: each part's start offset, and the total. */
    predicate Finalized()
      reads this
    {
      AllOk(parts, dataSize) && size == Total(parts) && Starts(offsets, parts)
    }

    /** Succeeds exactly on valid parts whose total agrees with a size set before. */
    method Finalize() returns (ok: bool)
      modifies this
      ensures ok <==> AllOk(parts, dataSize) && (old(size) == 0 || old(size) == Total(parts))
      ensures ok ==> Finalized()
      ensures parts == old(parts) && (!ok ==> size == old(size))
    {
      offsets := seq(|parts|, _ => 0);
      var pos := 0;
      var i := 0;
      while i < |parts|
        invariant 0 <= i <= |parts| == |offsets|
        invariant parts == old(parts) && size == old(size)
        invariant AllOk(parts[..i], dataSize) && pos == Total(parts[..i])
        invariant forall j :: 0 <= j < i ==> offsets[j] == Total(parts[..j])
      {
        var p := parts[i];
        if p.data.Some? {
          if |p.data.value| != p.len {
            return false;
          }
        } else if p.len <= 0 || p.off < 0 || p.off + p.len > dataSize {
          return false;
        }
        offsets := offsets[i := pos];
        pos := pos + p.len;
        i := i + 1;
        assert parts[..i][..i - 1] == parts[..i - 1];
      }
      assert parts[..i] == parts;
      if size != 0 && size != pos {
        return false;
      }
      size := pos;
      return true;
    }

    /** sort.Search: the number of parts that start at or before off. */
    method SearchOffsets(off: int) returns (k: nat)
      requires Finalized()
      ensures |offsets| == |parts| && k <= |parts|
      ensures forall j :: 0 <= j < k ==> offsets[j] <= off
      ensures forall j :: k <= j < |parts| ==> offsets[j] > off
      ensures 0 <= off < size ==> k > 0 && Reached(k - 1, off)
    {
      OffsetsSorted(parts, dataSize);
      var i, j := 0, |parts|;
      while i < j
        invariant 0 <= i <= j <= |parts|
        invariant forall m :: 0 <= m < i ==> offsets[m] <= off
        invariant forall m :: j <= m < |parts| ==> offsets[m] > off
      {
        var h := (i + j) / 2;
        if !(offsets[h] > off) {
          i := h + 1;
        } else {
          j := h;
        }
      }
      if 0 <= off < size { FirstPart(i, off); }
      return i;
    }

    /** Fills p from offset off of the virtual file. However short the data file's reads come out, and with
        whatever errors, the n bytes returned are the virtual file's; an intact data file gives all there are. */
    method ReadAt(p: array<byte>, off: nat, data: DataFile) returns (n: nat, err: IoError)
      requires Finalized() && |data.content| == dataSize
      modifies p
      ensures Served(p[..], Flatten(parts, data.content), old(p[..]), off, n, err, data.intact)
    {
      hide *;
      ghost var flat := Flatten(parts, data.content);
      ghost var was := p[..];
      ReadStarts(data.content, was, off);
      if off >= size {
        ServedPast(was, flat, off, data.intact);
        return 0, EOF;
      }
      var i := SearchOffsets(off);
      i := i - 1;
      n := 0;
      while i < |parts| && n < p.Length
        invariant 0 <= i <= |parts| && n <= p.Length && off + n <= size
        invariant n < p.Length ==> Reached(i, off + n)
        invariant Filled(p[..], flat, was, off, n)
      {
        var want, got, e := ReadTurn(i, p, off, n, data, flat, was);
        if got < want {
          ServedShort(p[..], flat, was, off, n + got, e);
          return n + got, e;
        }
        n := n + want;
        i := i + 1;
      }
      if n < p.Length { AllParts(off + n); }
      ServedAll(p[..], flat, was, off, n, data.intact);
      if n < p.Length {
        return n, EOF;
      }
      return n, NoError;
    }

    lemma ReadStarts(file: Bytes, was: Bytes, off: nat)
      requires Finalized() && |file| == dataSize
      ensures size == |Flatten(parts, file)| && Filled(was, Flatten(parts, file), was, off, 0)
    {
      FlattenLength(parts, file);
    }

    /** One turn of ReadAt's loop: the part of the request that part i covers. */
    method ReadTurn(i: nat, p: array<byte>, off: nat, n: nat, data: DataFile, ghost flat: Bytes, ghost was: Bytes)
      returns (want: nat, got: nat, err: IoError)
      requires Finalized() && |data.content| == dataSize
      requires i < |parts| && n < p.Length && off + n <= size && Reached(i, off + n)
      requires flat == Flatten(parts, data.content) && Filled(p[..], flat, was, off, n)
      modifies p
      ensures got <= want <= p.Length - n && off + n + want <= size
      ensures Filled(p[..], flat, was, off, n + got)
      ensures n + want < p.Length ==> Reached(i + 1, off + n + want)
      ensures got < want ==> (err == UnexpectedEOF || err == Fault) && !data.intact
    {
      var part := parts[i];
      PartAt(i, off + n, data.content);
      var within := off + n - offsets[i];
      want := part.len - within;
      if want > p.Length - n {
        want := p.Length - n;
      } else {
        NextPart(i, off + n, want);
      }
      ghost var before := p[..];
      got, err := ReadPart(part, p, n, within, want, data);
      Fill(part, data.content, flat, offsets[i], within, was, before, p[..], off, n, got);
    }

    /** Offset pos lies in part i, or at its end; at the end of the file when no part is left. */
    predicate Reached(i: nat, pos: int)
      reads this
    {
      if i < |parts| && i < |offsets| then offsets[i] <= pos <= offsets[i] + parts[i].len else pos == size
    }

    lemma AllParts(pos: int)
      requires Reached(|parts|, pos)
      ensures pos == size
    {
    }

    lemma FirstPart(k: nat, off: nat)
      requires Finalized() && off < size && k <= |parts| == |offsets|
      requires forall j :: 0 <= j < k ==> offsets[j] <= off
      requires forall j :: k <= j < |parts| ==> offsets[j] > off
      ensures k > 0 && Reached(k - 1, off)
    {
      assert parts != [];
      Placed(0);
      Placed(k - 1);
    }

    lemma NextPart(i: nat, pos: int, want: nat)
      requires Finalized() && i < |parts| == |offsets|
      requires pos + want == offsets[i] + parts[i].len
      ensures Reached(i + 1, pos + want)
    {
      Placed(i);
      if i + 1 < |parts| { Placed(i + 1); }
    }

    lemma PartAt(i: nat, pos: int, file: Bytes)
      requires Finalized() && |file| == dataSize && i < |parts| && Reached(i, pos)
      ensures |offsets| == |parts| && PartOk(parts[i], dataSize)
      ensures 0 <= offsets[i] <= pos <= offsets[i] + parts[i].len <= |Flatten(parts, file)| == size
      ensures |PartBytes(parts[i], file)| == parts[i].len
      ensures At(Flatten(parts, file), offsets[i], PartBytes(parts[i], file))
    {
      Placed(i);
      PartPlace(parts, i, file);
      FlattenLength(parts, file);
    }

    /** What the read index says of part i. */
    lemma Placed(i: nat)
      requires Finalized() && i < |parts|
      ensures |offsets| == |parts| && PartOk(parts[i], dataSize)
      ensures 0 <= parts[i].len && (i == 0 ==> offsets[i] == 0)
      ensures offsets[i] + parts[i].len == if i + 1 < |parts| then offsets[i + 1] else size
    {
      assert parts[..i + 1][..i] == parts[..i];
      assert parts[..|parts|] == parts;
    }
  }

  /** Fills p[n..n + want] from offset `within` of the part. */
  method ReadPart(part: Part, p: array<byte>, n: nat, within: nat, want: nat, data: DataFile)
    returns (got: nat, err: IoError)
    requires PartOk(part, |data.content|) && within + want <= part.len && n + want <= p.Length
    modifies p
    ensures got <= want
    ensures Grown(old(p[..]), p[..], n, PartBytes(part, data.content), within, got)
    ensures got < want ==> (err == UnexpectedEOF || err == Fault) && !data.intact
  {
    if part.data.Some? {
      Copy(p, n, part.data.value[within..within + want]);
      return want, NoError;
    }
    got, err := data.ReadAt(p, n, n + want, part.off + within);
    SubSlice(data.content, part.off, part.off + part.len, within, within + got);
    if got < want {
      if err == NoError || err == EOF {
        err := UnexpectedEOF;
      }
    }
  }

  /** copy(dst[n:], b). */
  method Copy(dst: array<byte>, n: nat, b: Bytes)
    requires n + |b| <= dst.Length
    modifies dst
    ensures dst[..] == old(dst[..n]) + b + old(dst[n + |b|..])
  {
    forall j | 0 <= j < |b| {
      dst[n + j] := b[j];
    }
  }

  /** The buffer now holds the n bytes of flat from off on, and after them what it held before. */
  predicate Filled(now: Bytes, flat: Bytes, was: Bytes, off: nat, n: nat) {
    && n <= |was| == |now|
    && if n == 0 then now == was else off + n <= |flat| && now == flat[off..off + n] + was[n..]
  }

  /** The buffer got m of the bytes, those from `within` on, at n and is otherwise unchanged. */
  predicate Grown(before: Bytes, now: Bytes, n: nat, bytes: Bytes, within: nat, m: nat) {
    && n + m <= |before| == |now| && within + m <= |bytes|
    && now == before[..n] + bytes[within..within + m] + before[n + m..]
  }

  /** What a read of |was| bytes at off owes its caller: the n bytes it reports are the virtual
      file's; no error means all of them, EOF that the file ended; and when the data file is
      intact, EOF is reported exactly if the request passes the end (or starts there). */
  predicate Served(now: Bytes, flat: Bytes, was: Bytes, off: nat, n: nat, err: IoError, intact: bool) {
    && Filled(now, flat, was, off, n)
    && (err == NoError ==> n == |was|)
    && (err == EOF ==> n == if off < |flat| then |flat| - off else 0)
    && (intact ==> err == if off >= |flat| || off + |was| > |flat| then EOF else NoError)
  }

  lemma ServedPast(was: Bytes, flat: Bytes, off: nat, intact: bool)
    requires off >= |flat|
    ensures Served(was, flat, was, off, 0, EOF, intact)
  {
  }

  lemma ServedShort(now: Bytes, flat: Bytes, was: Bytes, off: nat, n: nat, err: IoError)
    requires Filled(now, flat, was, off, n) && err != NoError && err != EOF
    ensures Served(now, flat, was, off, n, err, false)
  {
  }

  lemma ServedAll(now: Bytes, flat: Bytes, was: Bytes, off: nat, n: nat, intact: bool)
    requires Filled(now, flat, was, off, n) && off < |flat| && (n == |was| || off + n == |flat|)
    requires n == |was| ==> off + n <= |flat|
    ensures Served(now, flat, was, off, n, if n < |was| then EOF else NoError, intact)
  {
  }

  /** Bytes of part p, which starts at offset at of flat, put where they belong. */
  lemma Fill(p: Part, file: Bytes, flat: Bytes, at: nat, within: nat,
             was: Bytes, before: Bytes, now: Bytes, off: nat, n: nat, m: nat)
    requires PartOk(p, |file|) && at + within == off + n && within + m <= p.len && at + p.len <= |flat|
    requires At(flat, at, PartBytes(p, file))
    requires Filled(before, flat, was, off, n) && Grown(before, now, n, PartBytes(p, file), within, m)
    ensures Filled(now, flat, was, off, n + m)
  {
    PartSlice(p, file, flat, at, within, m);
    SliceSplit(flat, off, off + n, off + n + m);
    assert before[..n] == flat[off..off + n];
    assert before[n + m..] == was[n + m..];
  }

  /** The virtual file inside part p, which starts at offset at of it. */
  lemma PartSlice(p: Part, file: Bytes, flat: Bytes, at: nat, within: nat, want: nat)
    requires PartOk(p, |file|) && within + want <= p.len && at + p.len <= |flat|
    requires flat[at..at + p.len] == PartBytes(p, file)
    ensures |PartBytes(p, file)| == p.len
    ensures flat[at + within..at + within + want] == PartBytes(p, file)[within..within + want]
  {
    SubSlice(flat, at, at + p.len, within, within + want);
  }

  lemma {:induction false} OffsetsSorted(parts: seq<Part>, dataSize: int)
    requires AllOk(parts, dataSize)
    ensures forall a, b :: 0 <= a <= b <= |parts| ==> Total(parts[..a]) <= Total(parts[..b])
  {
    if parts != [] {
      var k := |parts| - 1;
      OffsetsSorted(parts[..k], dataSize);
      assert Total(parts) == Total(parts[..k]) + parts[k].len;
      forall a, b | 0 <= a <= b <= |parts|
        ensures Total(parts[..a]) <= Total(parts[..b])
      {
        assert parts[..|parts|] == parts;
        if a <= k { assert parts[..k][..a] == parts[..a] && parts[..k][..k] == parts[..k]; }
        if b <= k { assert parts[..k][..b] == parts[..b]; }
      }
    }
  }
}
