/** The steps the script performs in place on numpy arrays: the masked
    assignments `a[a < lo] = lo` and `a[a > hi] = hi`, and the zero buffer
    that receives the volume through a slice assignment. */
module Buffers {
  import opened Geometry
  import opened Volumes

  function ShapeOfArray(a: array3<real>): Shape {
    Shape(a.Length0, a.Length1, a.Length2)
  }

  /** The voxels an array holds now, as a value. */
  function Snapshot(a: array3<real>): (g: Grid)
    reads a
    ensures HasShape(g, ShapeOfArray(a))
    ensures forall i, j, k :: 0 <= i < a.Length0 && 0 <= j < a.Length1 && 0 <= k < a.Length2 ==>
              g[i][j][k] == a[i, j, k]
  {
    seq(a.Length0, i requires 0 <= i < a.Length0 reads a =>
      seq(a.Length1, j requires 0 <= j < a.Length1 reads a =>
        seq(a.Length2, k requires 0 <= k < a.Length2 reads a => a[i, j, k])))
  }

  /** A fresh array holding the voxels of `g` (what `load_volume`, `np.squeeze`
      and `255 * pred` hand back). */
  method FromGrid(g: Grid, s: Shape) returns (a: array3<real>)
    requires HasShape(g, s)
    ensures fresh(a)
    ensures ShapeOfArray(a) == s
    ensures Snapshot(a) == g
  {
    a := new real[s.n0, s.n1, s.n2]((i, j, k) requires 0 <= i < s.n0 && 0 <= j < s.n1 && 0 <= k < s.n2 => g[i][j][k]);
    GridExtensionality(Snapshot(a), g, s);
  }

  /** `a[a < lo] = lo`: every voxel below `lo` becomes `lo`, all others stay. */
  method RaiseBelow(a: array3<real>, lo: real)
    modifies a
    ensures forall i, j, k :: 0 <= i < a.Length0 && 0 <= j < a.Length1 && 0 <= k < a.Length2 ==>
              a[i, j, k] == RaiseTo(old(a[i, j, k]), lo)
  {
    forall i, j, k | 0 <= i < a.Length0 && 0 <= j < a.Length1 && 0 <= k < a.Length2 && a[i, j, k] < lo {
      a[i, j, k] := lo;
    }
  }

  /** `a[a > hi] = hi`: every voxel above `hi` becomes `hi`, all others stay. */
  method LowerAbove(a: array3<real>, hi: real)
    modifies a
    ensures forall i, j, k :: 0 <= i < a.Length0 && 0 <= j < a.Length1 && 0 <= k < a.Length2 ==>
              a[i, j, k] == LowerTo(old(a[i, j, k]), hi)
  {
    forall i, j, k | 0 <= i < a.Length0 && 0 <= j < a.Length1 && 0 <= k < a.Length2 && a[i, j, k] > hi {
      a[i, j, k] := hi;
    }
  }

  /** The two masked assignments one after the other. With `lo <= hi` every
      voxel ends in `[lo, hi]`, and the array holds the clamped old contents. */
  method ClampInPlace(a: array3<real>, lo: real, hi: real)
    requires lo <= hi
    modifies a
    ensures forall i, j, k :: 0 <= i < a.Length0 && 0 <= j < a.Length1 && 0 <= k < a.Length2 ==>
              lo <= a[i, j, k] <= hi
    ensures Snapshot(a) == ClampVoxels(old(Snapshot(a)), ShapeOfArray(a), lo, hi)
  {
    ghost var before := Snapshot(a);
    RaiseBelow(a, lo);
    LowerAbove(a, hi);
    GridExtensionality(Snapshot(a), ClampVoxels(before, ShapeOfArray(a), lo, hi), ShapeOfArray(a));
  }

  /** CT preprocessing: `im[im < 0] = 0` then `im[im > 80] = 80`. */
  method ClampCT(im: array3<real>)
    modifies im
    ensures forall i, j, k :: 0 <= i < im.Length0 && 0 <= j < im.Length1 && 0 <= k < im.Length2 ==>
              0.0 <= im[i, j, k] <= 80.0
    ensures Snapshot(im) == ClampVoxels(old(Snapshot(im)), ShapeOfArray(im), 0.0, 80.0)
  {
    ClampInPlace(im, 0.0, 80.0);
  }

  /** Output postprocessing: `pred[pred < 0] = 0` then `pred[pred > 128] = 128`. */
  method ClampPrediction(pred: array3<real>)
    modifies pred
    ensures forall i, j, k :: 0 <= i < pred.Length0 && 0 <= j < pred.Length1 && 0 <= k < pred.Length2 ==>
              0.0 <= pred[i, j, k] <= 128.0
    ensures Snapshot(pred) == ClampVoxels(old(Snapshot(pred)), ShapeOfArray(pred), 0.0, 128.0)
  {
    ClampInPlace(pred, 0.0, 128.0);
  }

  /** `S = np.zeros([1, *W, 1])` followed by the slice assignment of the volume
      into the window starting at `idx`: the buffer has the padded shape, holds
      `g` in the window and zero everywhere else. */
  method PlaceInZeros(g: Grid, s: Shape) returns (buf: array3<real>)
    requires HasShape(g, s)
    ensures fresh(buf)
    ensures ShapeOfArray(buf) == PaddedShape(s)
    ensures forall i, j, k :: 0 <= i < buf.Length0 && 0 <= j < buf.Length1 && 0 <= k < buf.Length2 ==>
              buf[i, j, k] == PaddedVoxel(g, s, i, j, k)
    ensures Snapshot(buf) == Pad(g, s)
  {
    var p := PaddedShape(s);
    var o := Offsets(s);
    buf := new real[p.n0, p.n1, p.n2]((i, j, k) => 0.0);
    forall i, j, k | 0 <= i < s.n0 && 0 <= j < s.n1 && 0 <= k < s.n2 {
      buf[o.n0 + i, o.n1 + j, o.n2 + k] := g[i][j][k];
    }
    forall i, j, k | 0 <= i < p.n0 && 0 <= j < p.n1 && 0 <= k < p.n2
      ensures buf[i, j, k] == PaddedVoxel(g, s, i, j, k)
    {
      if InWindow(s, i, j, k) {
        assert buf[o.n0 + (i - o.n0), o.n1 + (j - o.n1), o.n2 + (k - o.n2)] == g[i - o.n0][j - o.n1][k - o.n2];
      }
    }
    GridExtensionality(Snapshot(buf), Pad(g, s), p);
  }
}
