/** Volumes as values: a grid of voxel intensities indexed `g[i][j][k]`, and the
    pure operations the prediction script performs on whole volumes (zero
    padding, cropping, flipping, blending, scaling and clamping). */
module Volumes {
  import opened Geometry

  /** Voxel intensities along the three spatial axes. */
  type Grid = seq<seq<seq<real>>>

  /** `g` is a box of extents `s` (not ragged). */
  predicate HasShape(g: Grid, s: Shape) {
    |g| == s.n0 &&
    (forall i :: 0 <= i < |g| ==> |g[i]| == s.n1) &&
    (forall i, j :: 0 <= i < |g| && 0 <= j < |g[i]| ==> |g[i][j]| == s.n2)
  }

  /** The extents read off the first row of each axis. */
  function ShapeOf(g: Grid): Shape {
    Shape(|g|, if |g| == 0 then 0 else |g[0]|, if |g| == 0 || |g[0]| == 0 then 0 else |g[0][0]|)
  }

  predicate IsBox(g: Grid) {
    HasShape(g, ShapeOf(g))
  }

  /** For a box whose first two extents are non-zero, `ShapeOf` reads off its shape. */
  lemma ShapeOfHasShape(g: Grid, s: Shape)
    requires HasShape(g, s)
    requires s.n0 > 0 && s.n1 > 0
    ensures ShapeOf(g) == s
  {
  }

  /** Voxel `(i, j, k)` of the padded buffer lies in the window that receives the volume. */
  predicate InWindow(s: Shape, i: int, j: int, k: int) {
    var o := Offsets(s);
    o.n0 <= i < o.n0 + s.n0 && o.n1 <= j < o.n1 + s.n1 && o.n2 <= k < o.n2 + s.n2
  }

  /** The value of voxel `(i, j, k)` of the zero buffer after the volume is written
      into its window. */
  function PaddedVoxel(g: Grid, s: Shape, i: nat, j: nat, k: nat): real
    requires HasShape(g, s)
  {
    var o := Offsets(s);
    if InWindow(s, i, j, k) then g[i - o.n0][j - o.n1][k - o.n2] else 0.0
  }

  /** The volume centred in a zero box of the padded shape. */
  function Pad(g: Grid, s: Shape): (r: Grid)
    requires HasShape(g, s)
    ensures HasShape(r, PaddedShape(s))
    ensures forall i, j, k :: 0 <= i < |r| && 0 <= j < |r[i]| && 0 <= k < |r[i][j]| ==>
              r[i][j][k] == PaddedVoxel(g, s, i, j, k)
  {
    var p := PaddedShape(s);
    seq(p.n0, i requires 0 <= i < p.n0 =>
      seq(p.n1, j requires 0 <= j < p.n1 =>
        seq(p.n2, k requires 0 <= k < p.n2 => PaddedVoxel(g, s, i, j, k))))
  }

  /** Inside the window the padded volume holds the original voxels. */
  lemma PadInsideWindow(g: Grid, s: Shape, i: nat, j: nat, k: nat)
    requires HasShape(g, s)
    requires i < s.n0 && j < s.n1 && k < s.n2
    ensures var o := Offsets(s);
            Pad(g, s)[o.n0 + i][o.n1 + j][o.n2 + k] == g[i][j][k]
  {
  }

  /** Outside the window the padded volume is zero. */
  lemma PadOutsideWindow(g: Grid, s: Shape, i: nat, j: nat, k: nat)
    requires HasShape(g, s)
    requires i < PaddedShape(s).n0 && j < PaddedShape(s).n1 && k < PaddedShape(s).n2
    requires !InWindow(s, i, j, k)
    ensures Pad(g, s)[i][j][k] == 0.0
  {
  }

  /** The box of extents `s` starting at `o`: `g[o0:o0+s0, o1:o1+s1, o2:o2+s2]`. */
  function Crop(g: Grid, t: Shape, o: Shape, s: Shape): (r: Grid)
    requires HasShape(g, t)
    requires o.n0 + s.n0 <= t.n0 && o.n1 + s.n1 <= t.n1 && o.n2 + s.n2 <= t.n2
    ensures HasShape(r, s)
    ensures forall i, j, k :: 0 <= i < s.n0 && 0 <= j < s.n1 && 0 <= k < s.n2 ==>
              r[i][j][k] == g[o.n0 + i][o.n1 + j][o.n2 + k]
  {
    seq(s.n0, i requires 0 <= i < s.n0 =>
      seq(s.n1, j requires 0 <= j < s.n1 =>
        seq(s.n2, k requires 0 <= k < s.n2 => g[o.n0 + i][o.n1 + j][o.n2 + k])))
  }

  /** Two boxes of the same shape that agree voxel by voxel are equal. */
  lemma GridExtensionality(a: Grid, b: Grid, s: Shape)
    requires HasShape(a, s) && HasShape(b, s)
    requires forall i, j, k :: 0 <= i < s.n0 && 0 <= j < s.n1 && 0 <= k < s.n2 ==> a[i][j][k] == b[i][j][k]
    ensures a == b
  {
    forall i | 0 <= i < s.n0 ensures a[i] == b[i] {
      forall j | 0 <= j < s.n1 ensures a[i][j] == b[i][j] {
        assert |a[i][j]| == |b[i][j]| == s.n2;
      }
    }
  }

  /** Cropping the window out of the padded volume gives back the volume and its shape. */
  lemma CropPadRoundTrip(g: Grid, s: Shape)
    requires HasShape(g, s)
    ensures Crop(Pad(g, s), PaddedShape(s), Offsets(s), s) == g
  {
    var c := Crop(Pad(g, s), PaddedShape(s), Offsets(s), s);
    forall i, j, k | 0 <= i < s.n0 && 0 <= j < s.n1 && 0 <= k < s.n2
      ensures c[i][j][k] == g[i][j][k]
    {
      PadInsideWindow(g, s, i, j, k);
    }
    GridExtensionality(c, g, s);
  }

  /** `np.flip` along the first spatial axis (axis 1 of the batched tensor
      `[1, W0, W1, W2, 1]`): plane `i` becomes plane `|g| - 1 - i`. */
  function Flip(g: Grid): (r: Grid)
    ensures |r| == |g|
    ensures forall i :: 0 <= i < |g| ==> r[i] == g[|g| - 1 - i]
  {
    seq(|g|, i requires 0 <= i < |g| => g[|g| - 1 - i])
  }

  lemma FlipPreservesShape(g: Grid, s: Shape)
    requires HasShape(g, s)
    ensures HasShape(Flip(g), s)
  {
  }

  /** Flipping twice restores the volume. */
  lemma FlipInvolutive(g: Grid)
    ensures Flip(Flip(g)) == g
  {
    var ff := Flip(Flip(g));
    forall i | 0 <= i < |g| ensures ff[i] == g[i] {
      assert ff[i] == Flip(g)[|g| - 1 - i];
    }
  }

  /** The voxel-wise average `0.5 * a + 0.5 * b` of two predictions. */
  function Blend(a: Grid, b: Grid, s: Shape): (r: Grid)
    requires HasShape(a, s) && HasShape(b, s)
    ensures HasShape(r, s)
    ensures forall i, j, k :: 0 <= i < s.n0 && 0 <= j < s.n1 && 0 <= k < s.n2 ==>
              r[i][j][k] == 0.5 * a[i][j][k] + 0.5 * b[i][j][k]
  {
    seq(s.n0, i requires 0 <= i < s.n0 =>
      seq(s.n1, j requires 0 <= j < s.n1 =>
        seq(s.n2, k requires 0 <= k < s.n2 => 0.5 * a[i][j][k] + 0.5 * b[i][j][k])))
  }

  /** Blending a prediction with itself gives the prediction. */
  lemma BlendSame(a: Grid, s: Shape)
    requires HasShape(a, s)
    ensures Blend(a, a, s) == a
  {
    GridExtensionality(Blend(a, a, s), a, s);
  }

  /** The average does not depend on the order of the two predictions. */
  lemma BlendCommutes(a: Grid, b: Grid, s: Shape)
    requires HasShape(a, s) && HasShape(b, s)
    ensures Blend(a, b, s) == Blend(b, a, s)
  {
    GridExtensionality(Blend(a, b, s), Blend(b, a, s), s);
  }

  /** Flipping an average is averaging the flipped predictions. */
  lemma FlipBlend(a: Grid, b: Grid, s: Shape)
    requires HasShape(a, s) && HasShape(b, s)
    ensures HasShape(Flip(a), s) && HasShape(Flip(b), s)
    ensures Flip(Blend(a, b, s)) == Blend(Flip(a), Flip(b), s)
  {
    FlipPreservesShape(a, s);
    FlipPreservesShape(b, s);
    var l := Flip(Blend(a, b, s));
    var r := Blend(Flip(a), Flip(b), s);
    FlipPreservesShape(Blend(a, b, s), s);
    forall i, j, k | 0 <= i < s.n0 && 0 <= j < s.n1 && 0 <= k < s.n2
      ensures l[i][j][k] == r[i][j][k]
    {
      assert l[i] == Blend(a, b, s)[s.n0 - 1 - i];
    }
    GridExtensionality(l, r, s);
  }

  /** A voxel-wise operation applied to every voxel of a box. */
  function MapVoxels(g: Grid, s: Shape, f: real -> real): (r: Grid)
    requires HasShape(g, s)
    ensures HasShape(r, s)
    ensures forall i, j, k :: 0 <= i < s.n0 && 0 <= j < s.n1 && 0 <= k < s.n2 ==>
              r[i][j][k] == f(g[i][j][k])
  {
    seq(s.n0, i requires 0 <= i < s.n0 =>
      seq(s.n1, j requires 0 <= j < s.n1 =>
        seq(s.n2, k requires 0 <= k < s.n2 => f(g[i][j][k]))))
  }

  /** `x[x < lo] = lo` on one voxel. */
  function RaiseTo(x: real, lo: real): (y: real)
    ensures lo <= y
    ensures x >= lo ==> y == x
    ensures x < lo ==> y == lo
  {
    if x < lo then lo else x
  }

  /** `x[x > hi] = hi` on one voxel. */
  function LowerTo(x: real, hi: real): (y: real)
    ensures y <= hi
    ensures x <= hi ==> y == x
    ensures x > hi ==> y == hi
  {
    if x > hi then hi else x
  }

  /** The two masked assignments in the order the script runs them: first every
      voxel below `lo`, then every voxel above `hi`. */
  function Clamp(x: real, lo: real, hi: real): (y: real) {
    LowerTo(RaiseTo(x, lo), hi)
  }

  /** With `lo <= hi` the clamped voxel lies in `[lo, hi]`, a voxel already in
      range is left alone, and one outside goes to the bound it crossed. */
  lemma ClampBounds(x: real, lo: real, hi: real)
    requires lo <= hi
    ensures lo <= Clamp(x, lo, hi) <= hi
    ensures lo <= x <= hi ==> Clamp(x, lo, hi) == x
    ensures x < lo ==> Clamp(x, lo, hi) == lo
    ensures x > hi ==> Clamp(x, lo, hi) == hi
  {
  }

  /** Clamping a whole box. */
  function ClampVoxels(g: Grid, s: Shape, lo: real, hi: real): (r: Grid)
    requires HasShape(g, s)
    ensures HasShape(r, s)
  {
    MapVoxels(g, s, x => Clamp(x, lo, hi))
  }

  /** Every voxel of a clamped box lies in `[lo, hi]`, and a voxel that was in
      range keeps its value. */
  lemma ClampVoxelsInRange(g: Grid, s: Shape, lo: real, hi: real)
    requires HasShape(g, s)
    requires lo <= hi
    ensures forall i, j, k :: 0 <= i < s.n0 && 0 <= j < s.n1 && 0 <= k < s.n2 ==>
              lo <= ClampVoxels(g, s, lo, hi)[i][j][k] <= hi &&
              (lo <= g[i][j][k] <= hi ==> ClampVoxels(g, s, lo, hi)[i][j][k] == g[i][j][k])
  {
    var r := ClampVoxels(g, s, lo, hi);
    forall i, j, k | 0 <= i < s.n0 && 0 <= j < s.n1 && 0 <= k < s.n2
      ensures lo <= r[i][j][k] <= hi && (lo <= g[i][j][k] <= hi ==> r[i][j][k] == g[i][j][k])
    {
      ClampBounds(g[i][j][k], lo, hi);
    }
  }

  /** Clamping twice is clamping once. */
  lemma ClampVoxelsIdempotent(g: Grid, s: Shape, lo: real, hi: real)
    requires HasShape(g, s)
    requires lo <= hi
    ensures ClampVoxels(ClampVoxels(g, s, lo, hi), s, lo, hi) == ClampVoxels(g, s, lo, hi)
  {
    var once := ClampVoxels(g, s, lo, hi);
    ClampVoxelsInRange(once, s, lo, hi);
    GridExtensionality(ClampVoxels(once, s, lo, hi), once, s);
  }

  /** A box already in `[lo, hi]` is left unchanged by clamping. */
  lemma ClampVoxelsFixesInRange(g: Grid, s: Shape, lo: real, hi: real)
    requires HasShape(g, s)
    requires lo <= hi
    requires forall i, j, k :: 0 <= i < s.n0 && 0 <= j < s.n1 && 0 <= k < s.n2 ==> lo <= g[i][j][k] <= hi
    ensures ClampVoxels(g, s, lo, hi) == g
  {
    ClampVoxelsInRange(g, s, lo, hi);
    GridExtensionality(ClampVoxels(g, s, lo, hi), g, s);
  }
}
