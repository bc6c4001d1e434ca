/** Sample values and the small helper types shared by the playback and analysis modules. */
module Samples {

  /** A signed 16-bit PCM sample, the element type of every buffer the visualizer handles. */
  newtype Int16 = x: int | -0x8000 <= x < 0x8000

  datatype Option<+T> = None | Some(value: T)

  datatype Result<+T, +E> = Ok(value: T) | Err(error: E)

  function Min(a: int, b: int): int { if a <= b then a else b }

  /** Python's `s[lo:hi]` for non-negative bounds: the elements of `s` at the
      positions i with lo <= i < hi, where bounds past the end are clamped. */
  function Slice<T>(s: seq<T>, lo: nat, hi: nat): (r: seq<T>)
    ensures |r| == if lo < Min(hi, |s|) then Min(hi, |s|) - lo else 0
    ensures forall k :: 0 <= k < |r| ==> r[k] == s[lo + k]
  {
    var h := if hi < |s| then hi else |s|;
    if lo < h then s[lo..h] else []
  }
}
