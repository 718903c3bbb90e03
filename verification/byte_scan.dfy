/**
 Raw image payloads and the two operations `extract_img_direction` performs on
 them directly: `bytes.find` (first occurrence, or -1) and Python slicing.
 */
module ByteScan {

  newtype byte = x: int | 0 <= x < 256

  /** The bytes of an ASCII literal such as b'<x:xmpmeta'. Every literal used in
      this model is ASCII, for which the reduction modulo 256 is the identity. */
  function Ascii(s: string): (r: seq<byte>)
    ensures |r| == |s|
  {
    seq(|s|, i requires 0 <= i < |s| => (s[i] as int % 256) as byte)
  }

  /** `needle` sits in `hay` starting at index `i`. */
  predicate OccursAt<T(==)>(hay: seq<T>, needle: seq<T>, i: int)
  {
    0 <= i && i + |needle| <= |hay| && hay[i..i + |needle|] == needle
  }

  function FindFrom<T(==)>(hay: seq<T>, needle: seq<T>, from: nat): (r: int)
    decreases |hay| + 1 - from
    ensures r == -1 || (from <= r && OccursAt(hay, needle, r))
    ensures forall j :: from <= j && (r == -1 || j < r) ==> !OccursAt(hay, needle, j)
  {
    if from + |needle| > |hay| then -1
    else if hay[from..from + |needle|] == needle then from
    else FindFrom(hay, needle, from + 1)
  }

  /** Python's `hay.find(needle)`: the first index at which `needle` occurs,
      or -1 when it occurs nowhere. */
  function Find<T(==)>(hay: seq<T>, needle: seq<T>): (r: int)
    ensures r == -1 || OccursAt(hay, needle, r)
    ensures forall j :: 0 <= j && (r == -1 || j < r) ==> !OccursAt(hay, needle, j)
  {
    FindFrom(hay, needle, 0)
  }

  function Min(a: int, b: int): int
  {
    if a <= b then a else b
  }

  /** Python's `s[lo:hi]` for non-negative bounds: both bounds are clamped to the
      length, and a slice whose end does not exceed its start is empty. */
  function Slice<T>(s: seq<T>, lo: nat, hi: nat): (r: seq<T>)
    ensures hi <= lo ==> r == []
    ensures |r| == if Min(lo, |s|) < Min(hi, |s|) then Min(hi, |s|) - Min(lo, |s|) else 0
    ensures |r| <= |s| && |r| <= hi
    ensures lo < hi ==> |r| <= hi - lo
    ensures forall k :: 0 <= k < |r| ==> lo + k < |s| && r[k] == s[lo + k]
  {
    var a := Min(lo, |s|);
    var b := Min(hi, |s|);
    if a < b then s[a..b] else []
  }
}
