/** The two optional per-sample transforms of the 28x28 array: polarity inversion in the
    uint8 domain and rescaling to the unit interval. Both are whole-array expressions. */
module Transforms {
  import opened Grids

  /** `255 - v` evaluated in uint8 arithmetic. */
  function InvertSample(v: int): (r: int)
    ensures IsSample(r)
    ensures IsSample(v) ==> r == 255 - v && IsSample(255 - v)
  {
    U8(255 - v)
  }

  /** The array expression `255 - pixel_array` on a uint8 array: the shape is kept, every
      sample v becomes 255 - v with no wrap-around, and the result is again uint8. */
  function Invert(g: seq<seq<int>>): (r: seq<seq<int>>)
    ensures SameShape(g, r)
    ensures AllSamples(r)
    ensures AllSamples(g) ==>
      forall i, j :: 0 <= i < |g| && 0 <= j < |g[i]| ==> r[i][j] + g[i][j] == 255
  {
    seq(|g|, i requires 0 <= i < |g| =>
      seq(|g[i]|, j requires 0 <= j < |g[i]| => InvertSample(g[i][j])))
  }

  /** Inverting twice gives back the original array exactly: the arithmetic is integer. */
  lemma InvertInvolution(g: seq<seq<int>>)
    requires AllSamples(g)
    ensures Invert(Invert(g)) == g
  {
    var once := Invert(g);
    var twice := Invert(once);
    forall i | 0 <= i < |g|
      ensures twice[i] == g[i]
    {
      forall j | 0 <= j < |g[i]|
        ensures twice[i][j] == g[i][j]
      {
        assert once[i][j] == 255 - g[i][j];
      }
    }
  }

  /** No uint8 array is its own inverse: 255 - v == v has no integer solution, so
      inversion changes every sample of a non-empty array. */
  lemma InvertChangesEverySample(g: seq<seq<int>>, i: nat, j: nat)
    requires AllSamples(g)
    requires i < |g| && j < |g[i]|
    ensures Invert(g)[i][j] != g[i][j]
    ensures Invert(g) != g
  {
    assert Invert(g)[i][j] == 255 - g[i][j];
  }

  /** One sample of `pixel_array / 255.0`, with exact division: the result times 255 is the
      sample, and a uint8 sample lands in [0, 1]. */
  function NormalizeSample(v: int): (r: real)
    ensures r * 255.0 == v as real
    ensures IsSample(v) ==> 0.0 <= r <= 1.0
  {
    v as real / 255.0
  }

  /** The array expression `pixel_array / 255.0`: the shape is kept, every entry is the
      sample rescaled by 1/255, and for a uint8 array every entry lies in [0, 1]. */
  function Normalize(g: seq<seq<int>>): (r: seq<seq<real>>)
    ensures SameShape(g, r)
    ensures forall i, j :: 0 <= i < |g| && 0 <= j < |g[i]| ==> r[i][j] * 255.0 == g[i][j] as real
    ensures AllSamples(g) ==>
      forall i, j :: 0 <= i < |r| && 0 <= j < |r[i]| ==> 0.0 <= r[i][j] <= 1.0
  {
    seq(|g|, i requires 0 <= i < |g| =>
      seq(|g[i]|, j requires 0 <= j < |g[i]| => NormalizeSample(g[i][j])))
  }

  /** Normalisation loses nothing: the rescaled array determines the integer array. */
  lemma NormalizeInjective(a: seq<seq<int>>, b: seq<seq<int>>)
    requires Normalize(a) == Normalize(b)
    ensures a == b
  {
    var n := Normalize(a);
    assert |a| == |n| == |b|;
    forall i | 0 <= i < |a|
      ensures a[i] == b[i]
    {
      assert |a[i]| == |n[i]| == |b[i]|;
      forall j | 0 <= j < |a[i]|
        ensures a[i][j] == b[i][j]
      {
        assert n[i][j] * 255.0 == a[i][j] as real;
        assert n[i][j] * 255.0 == b[i][j] as real;
      }
    }
  }

  /** Inverting in the 0..255 domain and then normalising gives, sample by sample, what
      normalising first and inverting in the unit domain (1 - v) would give: the fixed
      order invert-then-normalise is a choice of domain, not of values. */
  lemma InvertThenNormalizeIsUnitInversion(g: seq<seq<int>>)
    requires AllSamples(g)
    ensures SameShape(g, Normalize(Invert(g)))
    ensures forall i, j :: 0 <= i < |g| && 0 <= j < |g[i]| ==>
      Normalize(Invert(g))[i][j] == 1.0 - Normalize(g)[i][j]
  {
    var inv := Invert(g);
    var n := Normalize(g);
    var ni := Normalize(inv);
    forall i, j | 0 <= i < |g| && 0 <= j < |g[i]|
      ensures ni[i][j] == 1.0 - n[i][j]
    {
      assert inv[i][j] + g[i][j] == 255;
      assert ni[i][j] * 255.0 == inv[i][j] as real;
      assert n[i][j] * 255.0 == g[i][j] as real;
    }
  }
}
