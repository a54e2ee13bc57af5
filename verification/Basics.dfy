/** Bytes, results and the big-endian arithmetic that EBML framing is built on. */
module Basics {

  type byte = b: int | 0 <= b < 256
  type Bytes = seq<byte>

  /** What can go wrong. `Unsupported` is the error that sends a file down the remux path. */
  datatype Error =
    | Short          // the buffer ended inside an element header
    | Eof            // nothing to read at that offset
    | UnexpectedEof  // fewer bytes than asked for
    | Invalid        // bytes that are no EBML framing
    | Unsupported    // a valid file that cannot be clipped by reference
    | Malformed      // an element whose content is wrong
    | OutOfRange     // the requested range is not in the file

  datatype Option<+T> = None | Some(value: T)

  datatype Result<+T> = Ok(value: T) | Err(error: Error) {
    predicate IsFailure() { Err? }

    function PropagateFailure<U>(): Result<U>
      requires Err?
    {
      Err(error)
    }

    function Extract(): T
      requires Ok?
    {
      value
    }
  }

  function Pow256(k: nat): (p: nat)
    ensures p > 0
  {
    if k == 0 then 1 else 256 * Pow256(k - 1)
  }

  function Pow128(k: nat): (p: nat)
    ensures p > 0
  {
    if k == 0 then 1 else 128 * Pow128(k - 1)
  }

  const TWO31: nat := 0x8000_0000
  const TWO32: nat := 0x1_0000_0000
  const TWO56: nat := 0x100_0000_0000_0000
  const TWO62: nat := 0x4000_0000_0000_0000
  const TWO63: nat := 0x8000_0000_0000_0000
  const TWO64: nat := 0x1_0000_0000_0000_0000

  /** The conversion int64(u) of an unsigned 64-bit value. */
  function I64(u: nat): int {
    if u % TWO64 < TWO63 then u % TWO64 else u % TWO64 - TWO64
  }

  /** The conversion uint64(i) of a signed value. */
  function U64(i: int): nat { i % TWO64 }

  /** The conversion int16(u) of an unsigned 16-bit value. */
  function I16(u: nat): int
    requires u < 65536
  {
    if u < 32768 then u else u - 65536
  }

  /** The big-endian value of s. */
  function BeVal(s: Bytes): nat {
    if s == [] then 0 else 256 * BeVal(s[..|s| - 1]) + s[|s| - 1]
  }

  lemma BeValStep(s: Bytes, i: nat)
    requires i < |s|
    ensures BeVal(s[..i + 1]) == 256 * BeVal(s[..i]) + s[i]
  {
    assert s[..i + 1][..i] == s[..i];
  }

  /** The w low bytes of v, most significant first. */
  function BeBytes(v: nat, w: nat): (s: Bytes)
    ensures |s| == w
  {
    if w == 0 then [] else BeBytes(v / 256, w - 1) + [v % 256]
  }

  lemma {:induction false} BeValBound(s: Bytes)
    ensures BeVal(s) < Pow256(|s|)
  {
    if s != [] {
      BeValBound(s[..|s| - 1]);
    }
  }

  lemma {:induction false} BeValOfBytes(v: nat, w: nat)
    requires v < Pow256(w)
    ensures BeVal(BeBytes(v, w)) == v
  {
    if w > 0 {
      BeValOfBytes(v / 256, w - 1);
      assert BeBytes(v, w)[..w - 1] == BeBytes(v / 256, w - 1);
    }
  }

  lemma {:induction false} BeBytesOfVal(s: Bytes)
    ensures BeBytes(BeVal(s), |s|) == s
  {
    if s != [] {
      BeBytesOfVal(s[..|s| - 1]);
      assert s == s[..|s| - 1] + [s[|s| - 1]];
    }
  }

  lemma {:induction false} BeValHead(s: Bytes)
    requires s != []
    ensures BeVal(s) == s[0] * Pow256(|s| - 1) + BeVal(s[1..])
  {
    if |s| == 1 {
      assert s[..0] == [] && s[1..] == [];
    } else {
      var t := s[..|s| - 1];
      BeValHead(t);
      assert s[1..][..|s| - 2] == t[1..];
      assert t[0] == s[0];
      calc {
        BeVal(s);
        256 * BeVal(t) + s[|s| - 1];
        256 * (s[0] * Pow256(|s| - 2) + BeVal(t[1..])) + s[|s| - 1];
        s[0] * (256 * Pow256(|s| - 2)) + 256 * BeVal(t[1..]) + s[|s| - 1];
        s[0] * Pow256(|s| - 1) + BeVal(s[1..]);
      }
    }
  }

  lemma SubSlice<T>(s: seq<T>, lo: nat, hi: nat, a: nat, b: nat)
    requires lo <= hi <= |s| && a <= b <= hi - lo
    ensures s[lo..hi][a..b] == s[lo + a..lo + b]
  {
    var x, y := s[lo..hi][a..b], s[lo + a..lo + b];
    assert |x| == |y|;
    forall i | 0 <= i < |x|
      ensures x[i] == y[i]
    {
    }
  }

  lemma TailSlice<T>(s: seq<T>, a: nat, b: nat)
    requires a <= b <= |s|
    ensures s[a..][..b - a] == s[..b][a..]
  {
  }

  lemma Assoc<T>(x: seq<T>, y: seq<T>, z: seq<T>)
    ensures x + y + z == x + (y + z)
  {
  }

  lemma InitLast<T>(s: seq<T>)
    requires s != []
    ensures s == s[..|s| - 1] + [s[|s| - 1]]
  {
  }

  lemma SliceSplit<T>(s: seq<T>, lo: nat, mid: nat, hi: nat)
    requires lo <= mid <= hi <= |s|
    ensures s[lo..hi] == s[lo..mid] + s[mid..hi]
  {
  }

  /** Bytes s stand in r at offset off. */
  predicate At(r: Bytes, off: int, s: Bytes) {
    0 <= off && off + |s| <= |r| && r[off..off + |s|] == s
  }

  lemma AtSplit(r: Bytes, off: int, a: Bytes, b: Bytes)
    ensures At(r, off, a + b) <==> At(r, off, a) && At(r, off + |a|, b)
  {
    if At(r, off, a + b) {
      assert r[off..off + |a|] == r[off..off + |a + b|][..|a|] == a;
      assert r[off + |a|..off + |a| + |b|] == r[off..off + |a + b|][|a|..] == b;
    }
    if At(r, off, a) && At(r, off + |a|, b) {
      assert r[off..off + |a + b|] == r[off..off + |a|] + r[off + |a|..off + |a| + |b|];
    }
  }

  /** The members of s whose mark is set, in order. */
  function Pick<T>(s: seq<T>, marks: seq<bool>): seq<T>
    requires |s| == |marks|
  {
    if s == [] then [] else (if marks[0] then [s[0]] else []) + Pick(s[1..], marks[1..])
  }
}
