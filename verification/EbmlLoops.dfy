/** The loops of internal/ebml, each proved to compute its function in module Ebml.
    Shifts and masks of unsigned words are written as division and remainder by powers of two. */
module EbmlLoops {
  import opened Basics
  import opened Ebml

  function Pow2(k: nat): (p: nat)
    ensures p > 0
  {
    if k == 0 then 1 else 2 * Pow2(k - 1)
  }

  /** Whether v & (1 << k) is nonzero. */
  predicate Bit(v: nat, k: nat) { v / Pow2(k) % 2 == 1 }

  method VintLen(b0: byte) returns (n: nat)
    ensures n == VintWidth(b0)
  {
    n := 1;
    while n <= 8
      invariant 1 <= n <= 9
      invariant n <= 8 ==> b0 < 2 * Marker(n)
      invariant n == 9 ==> b0 == 0
    {
      TopBit(b0, n);
      if Bit(b0, 8 - n) {
        return;
      }
      n := n + 1;
    }
    n := 0;
  }

  lemma TopBit(b0: byte, n: nat)
    requires 1 <= n <= 8 && b0 < 2 * Marker(n)
    ensures Bit(b0, 8 - n) <==> b0 >= Marker(n)
  {
    assert Pow2(0) == 1 && Pow2(1) == 2 && Pow2(2) == 4 && Pow2(3) == 8;
    assert Pow2(4) == 16 && Pow2(5) == 32 && Pow2(6) == 64 && Pow2(7) == 128;
  }

  method ReadID(b: Bytes) returns (r: Result<(nat, nat)>)
    ensures r == DecodeID(b)
  {
    if |b| == 0 {
      return Err(Short);
    }
    var n := VintLen(b[0]);
    if n == 0 || n > 4 {
      return Err(Invalid);
    }
    if |b| < n {
      return Err(Short);
    }
    var v: nat := 0;
    for i := 0 to n
      invariant v == BeVal(b[..i])
    {
      BeValStep(b, i);
      v := v * 256 + b[i];
    }
    return Ok((v, n));
  }

  /** The all-ones flag of the loop is set exactly when the value read is the reserved one. */
  method ReadSize(b: Bytes) returns (r: Result<(int, nat)>)
    ensures r == DecodeSize(b)
  {
    if |b| == 0 {
      return Err(Short);
    }
    var n := VintLen(b[0]);
    if n == 0 {
      return Err(Invalid);
    }
    if |b| < n {
      return Err(Short);
    }
    var v: nat := b[0] % Marker(n);
    assert BeVal(b[..1]) == b[0] && Pow256(0) == 1;
    var allOnes := v == Marker(n) - 1;
    hide BeVal, Pow256, Pow128;
    ghost var top := Marker(n);  // weight of the marker in the bytes read so far
    for i := 1 to n
      invariant v + top == BeVal(b[..i]) && v < top
      invariant top == Marker(n) * Pow256(i - 1)
      invariant allOnes <==> v == top - 1
    {
      BeValStep(b, i);
      assert top * 256 == Marker(n) * Pow256(i) by { WeightShift(Marker(n), i); }
      v := v * 256 + b[i];
      allOnes := allOnes && b[i] == 0xFF;
      top := top * 256;
    }
    MarkerWeight(n);
    if allOnes {
      return Ok((UNKNOWN_SIZE, n));
    }
    assert v < TWO63 by { PowTable(); }  // the source's overflow test can never fire
    return Ok((v, n));
  }

  lemma WeightShift(m: nat, i: nat)
    requires i > 0
    ensures m * Pow256(i - 1) * 256 == m * Pow256(i)
  {
  }

  lemma MarkerWeight(n: nat)
    requires 1 <= n <= 8
    ensures Marker(n) * Pow256(n - 1) == Pow128(n)
  {
    PowTable();
  }

  method Uint(b: Bytes) returns (r: Result<nat>)
    ensures r == UintOf(b)
    ensures r.Ok? ==> r.value < TWO64
  {
    if |b| > 8 {
      return Err(Invalid);
    }
    var v: nat := 0;
    for i := 0 to |b|
      invariant v == BeVal(b[..i])
    {
      BeValStep(b, i);
      v := v * 256 + b[i];
    }
    assert b[..|b|] == b;
    assert v < TWO64 by { BeValBound(b); PowTable(); }
    return Ok(v);
  }

  /** A Go slice: the bytes buf[lo..hi], whose capacity reaches to the end of buf. */
  datatype Slice = Slice(buf: Bytes, lo: nat, hi: nat) {
    predicate Valid() { lo <= hi <= |buf| }

    function View(): Bytes {
      if Valid() then buf[lo..hi] else []
    }

    function Cap(): nat
      requires Valid()
    {
      |buf| - lo
    }
  }

  /** An Element whose Data and Raw are slices of its parent's buffer. */
  datatype ElementView = ElementView(id: nat, data: Slice, raw: Slice) {
    predicate Inside(b: Slice) {
      && data.Valid() && raw.Valid() && data.buf == raw.buf == b.buf
      && b.lo <= raw.lo <= data.lo <= data.hi == raw.hi <= b.hi
    }

    function ToElement(): Element {
      Element(id, data.View(), raw.View())
    }
  }

  predicate AllInside(vs: seq<ElementView>, b: Slice) {
    forall i :: 0 <= i < |vs| ==> vs[i].Inside(b)
  }

  function ToElements(vs: seq<ElementView>): (es: seq<Element>)
    ensures |es| == |vs| && forall i :: 0 <= i < |vs| ==> es[i] == vs[i].ToElement()
  {
    if vs == [] then [] else [vs[0].ToElement()] + ToElements(vs[1..])
  }

  lemma ToElementsSnoc(vs: seq<ElementView>, v: ElementView)
    ensures ToElements(vs + [v]) == ToElements(vs) + [v.ToElement()]
  {
  }

  /** es in front of what Elements makes of the rest. */
  function Prepend(es: seq<Element>, rest: Result<seq<Element>>): Result<seq<Element>> {
    match rest
    case Ok(more) => Ok(es + more)
    case Err(x) => Err(x)
  }

  /** Reading on after the well-formed element e. */
  lemma NextElement(es: seq<Element>, e: Element, rest: Bytes)
    requires IsElement(e)
    ensures Prepend(es, Elements(e.raw + rest)) == Prepend(es + [e], Elements(rest))
  {
    hide Elements, Prepend, IsElement;
    ElementsCons(e, rest);
    PrependCons(es, e, Elements(rest));
  }

  lemma PrependCons(es: seq<Element>, e: Element, rest: Result<seq<Element>>)
    ensures Prepend(es, match rest case Ok(more) => Ok([e] + more) case Err(x) => Err(x)) == Prepend(es + [e], rest)
  {
    if rest.Ok? { assert es + ([e] + rest.value) == es + [e] + rest.value; }
  }

  lemma HeadElement(b: Bytes, hl: nat, n: nat)
    requires ParseHeader(b).Ok? && ParseHeader(b).value.headerLen == hl
    requires ParseHeader(b).value.size >= 0 && n == hl + ParseHeader(b).value.size <= |b|
    ensures IsElement(Element(ParseHeader(b).value.id, b[hl..n], b[..n]))
  {
    ParsedHeader(b);
    assert b[..n][..hl] == b[..hl];
    HeaderStable(b, b[..n]);
  }

  lemma InsideSnoc(out: seq<ElementView>, b: Slice, p: nat, e: ElementView)
    requires AllInside(out, b) && Consecutive(out, b.lo, p) && e.Inside(b) && e.raw.lo == p
    ensures AllInside(out + [e], b) && Consecutive(out + [e], b.lo, e.raw.hi)
  {
  }

  /** One turn of the loop in Children. */
  lemma ChildStep(out: seq<ElementView>, b: Slice, p: nat, e: ElementView)
    requires b.Valid() && b.lo <= p < b.hi
    requires e.Inside(b) && e.raw.lo == p && IsElement(e.ToElement())
    ensures Prepend(ToElements(out), Elements(b.buf[p..b.hi])) ==
            Prepend(ToElements(out + [e]), Elements(b.buf[e.raw.hi..b.hi]))
  {
    hide Elements, ToElements, Prepend, IsElement;
    SliceSplit(b.buf, p, e.raw.hi, b.hi);
    NextElement(ToElements(out), e.ToElement(), b.buf[e.raw.hi..b.hi]);
    ToElementsSnoc(out, e);
  }

  /** The slices cut out for a header that fits make a well-formed element. */
  lemma ChildElement(b: Slice, p: nat, e: ElementView)
    requires b.Valid() && b.lo <= p < b.hi
    requires var h := ParseHeader(b.buf[p..b.hi]);
      && h.Ok? && h.value.size >= 0
      && e == ElementView(h.value.id, Slice(b.buf, p + h.value.headerLen, e.raw.hi), Slice(b.buf, p, e.raw.hi))
      && e.raw.hi == p + h.value.headerLen + h.value.size <= b.hi
    ensures e.Inside(b) && IsElement(e.ToElement())
  {
    hide ParseHeader, IsElement;
    var hl := ParseHeader(b.buf[p..b.hi]).value.headerLen;
    var n := e.raw.hi - p;
    SubSlice(b.buf, p, b.hi, hl, n);
    SubSlice(b.buf, p, b.hi, 0, n);
    HeadElement(b.buf[p..b.hi], hl, n);
    assert e.ToElement() == Element(e.id, b.buf[p + hl..e.raw.hi], b.buf[p..e.raw.hi]);
  }

  /** The elements of b, aliasing b's buffer and placed one right after the other. */
  method Children(b: Slice) returns (r: Result<seq<ElementView>>)
    requires b.Valid()
    ensures r.Err? ==> Elements(b.View()) == Err(r.error)
    ensures r.Ok? ==> AllInside(r.value, b) && Elements(b.View()) == Ok(ToElements(r.value))
    ensures r.Ok? ==> Consecutive(r.value, b.lo, b.hi)
  {
    hide ParseHeader, ToElements;
    var out: seq<ElementView> := [];
    var p := b.lo;
    if Elements(b.View()).Ok? { assert [] + Elements(b.View()).value == Elements(b.View()).value; }
    while p < b.hi
      invariant b.lo <= p <= b.hi
      invariant AllInside(out, b) && Consecutive(out, b.lo, p)
      invariant Elements(b.View()) == Prepend(ToElements(out), Elements(b.buf[p..b.hi]))
    {
      var parsed := ParseHeader(b.buf[p..b.hi]);
      if parsed.Err? {
        return Err(parsed.error);
      }
      var h := parsed.value;
      if h.size == UNKNOWN_SIZE {
        return Err(Invalid);
      }
      ParsedHeader(b.buf[p..b.hi]);
      var end := p + h.headerLen + h.size;
      if h.size > b.hi - b.lo || end > b.hi {
        return Err(Invalid);
      }
      var e := ElementView(h.id, Slice(b.buf, p + h.headerLen, end), Slice(b.buf, p, end));
      ChildElement(b, p, e);
      InsideSnoc(out, b, p, e);
      ChildStep(out, b, p, e);
      out := out + [e];
      p := end;
    }
    assert b.buf[p..b.hi] == [];
    assert ToElements(out) + [] == ToElements(out);
    return Ok(out);
  }

  /** The raw slices of vs cover [lo, hi) in order without gap or overlap. */
  predicate Consecutive(vs: seq<ElementView>, lo: int, hi: int) {
    && lo <= hi
    && (vs == [] ==> lo == hi)
    && (vs != [] ==> vs[0].raw.lo == lo && vs[|vs| - 1].raw.hi == hi)
    && (forall i :: 0 < i < |vs| ==> vs[i - 1].raw.hi == vs[i].raw.lo)
  }

  /** v >> 8i. */
  function High(v: nat, i: nat): nat {
    if i == 0 then v else High(v, i - 1) / 256
  }

  method AppendSizeWidth(dst: Bytes, n: nat, width: nat) returns (out: Bytes)
    requires 1 <= width <= 8
    ensures out == dst + EncodeSize(n, width)
  {
    var v := WithMarker(n, width);
    out := dst;
    var i := width;
    while i > 0
      invariant 0 <= i <= width
      invariant out == dst + BeBytes(High(v, i), width - i)
    {
      i := i - 1;
      var c: byte := High(v, i) % 256;
      assert BeBytes(High(v, i), width - i) == BeBytes(High(v, i + 1), width - i - 1) + [c];
      out := out + [c];
    }
  }

  method SizeWidth(n: nat) returns (w: nat)
    ensures w == MinSizeWidth(n)
  {
    w := 1;
    while w < 8 && n >= Pow128(w) - 1
      invariant 1 <= w <= 8
      invariant MinSizeWidth(n) == SizeWidthFrom(n, w)
    {
      w := w + 1;
    }
  }

  method AppendElement(dst: Bytes, id: nat, payload: Bytes) returns (out: Bytes)
    ensures out == dst + EncodeElement(id, payload)
  {
    out := dst + EncodeID(id);
    var w := SizeWidth(|payload|);
    out := AppendSizeWidth(out, |payload|, w);
    out := out + payload;
  }

  method AppendUintWidth(dst: Bytes, id: nat, v: nat, width: nat) returns (out: Bytes)
    ensures out == dst + EncodeUintWidth(id, v, width)
  {
    var buf := new byte[width](_ => 0);
    var rest := v;
    var i := width;
    while i > 0
      invariant 0 <= i <= width
      invariant BeBytes(v, width) == BeBytes(rest, i) + buf[i..]
    {
      i := i - 1;
      ghost var tail := buf[i + 1..];
      buf[i] := rest % 256;
      rest := rest / 256;
      assert buf[i..] == [buf[i]] + tail;
    }
    assert buf[..] == BeBytes(v, width);
    out := AppendElement(dst, id, buf[..]);
  }

  method AppendUint(dst: Bytes, id: nat, v: nat) returns (out: Bytes)
    ensures out == dst + EncodeUint(id, v)
  {
    var n := 1;
    while n < 8 && v / Pow256(n) != 0
      invariant 1 <= n <= 8
      invariant UintWidthFrom(v, 1) == UintWidthFrom(v, n)
    {
      n := n + 1;
    }
    out := AppendUintWidth(dst, id, v, n);
  }
}
