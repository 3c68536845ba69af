/** Sample grids as the drawing script handles them: two-dimensional arrays of shape
    (height, width), stored row-major, whose entries are unsigned 8-bit samples. */
module Grids {

  /** An unsigned 8-bit value, as found in an encoded image file. */
  type Octet = v: int | IsSample(v)

  /** The side of the canonical image: every drawing is resized to SIDE x SIDE. */
  const SIDE: nat := 28

  /** A uint8 sample value. */
  predicate IsSample(v: int) {
    0 <= v <= 255
  }

  /** The value an integer takes once stored as numpy's uint8: reduction modulo 256,
      which is also what uint8 arithmetic does when a result leaves 0..255. */
  function U8(x: int): (r: int)
    ensures IsSample(r)
    ensures IsSample(x) ==> r == x
    ensures x < 0 && -256 <= x ==> r == x + 256
  {
    x % 256
  }

  /** g has exactly h rows of exactly w samples each. */
  predicate HasShape<T>(g: seq<seq<T>>, h: nat, w: nat) {
    |g| == h && forall i :: 0 <= i < |g| ==> |g[i]| == w
  }

  /** g is a proper raster: rectangular, with at least one row and one column. */
  predicate IsRaster<T>(g: seq<seq<T>>) {
    |g| > 0 && |g[0]| > 0 && HasShape(g, |g|, |g[0]|)
  }

  /** Every entry of g is a uint8 sample. */
  predicate AllSamples(g: seq<seq<int>>) {
    forall i, j :: 0 <= i < |g| && 0 <= j < |g[i]| ==> IsSample(g[i][j])
  }

  /** g is an h x w uint8 image. */
  predicate IsByteGrid(g: seq<seq<int>>, h: nat, w: nat) {
    HasShape(g, h, w) && AllSamples(g)
  }

  /** g and r have the same number of rows, and each row the same length. */
  predicate SameShape<T, U>(g: seq<seq<T>>, r: seq<seq<U>>) {
    |r| == |g| && forall i :: 0 <= i < |g| ==> |r[i]| == |g[i]|
  }
}
