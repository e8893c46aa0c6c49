/** Shape arithmetic of the network input: each spatial extent of a volume is
    rounded up to a multiple of 32 (the U-Net halves the resolution at each of
    its five levels), the volume is centred in that padded box, and the batch
    and channel axes of the network output are squeezed away again. */
module Geometry {

  /** Every extent the network sees is a multiple of this factor. */
  const Multiple: nat := 32

  /** The three spatial extents of a volume (numpy's `shape` without the batch
      and channel axes). */
  datatype Shape = Shape(n0: nat, n1: nat, n2: nat)

  /** `ceil(d / 32) * 32`: the padded extent of a spatial dimension of size `d`. */
  function PaddedSize(d: nat): (w: nat)
    ensures w % Multiple == 0
    ensures d <= w < d + Multiple
  {
    var blocks := (d + Multiple - 1) / Multiple;
    assert blocks * Multiple <= d + Multiple - 1 < blocks * Multiple + Multiple;
    blocks * Multiple
  }

  /** No multiple of 32 that holds `d` is smaller than the padded extent. */
  lemma PaddedSizeIsLeast(d: nat, m: nat)
    requires m % Multiple == 0
    requires d <= m
    ensures PaddedSize(d) <= m
  {
  }

  /** `floor((w - d) / 2)`: where a volume of extent `d` starts inside a padded
      extent `w`. The window `[idx, idx + d)` fits, and the margin after it is
      the margin before it or one voxel wider. */
  function Offset(d: nat, w: nat): (idx: nat)
    requires d <= w
    ensures idx + d <= w
    ensures w - (idx + d) == idx || w - (idx + d) == idx + 1
  {
    (w - d) / 2
  }

  /** The shape of the zero buffer that receives the volume. */
  function PaddedShape(s: Shape): (p: Shape)
    ensures p.n0 % Multiple == 0 && p.n1 % Multiple == 0 && p.n2 % Multiple == 0
    ensures s.n0 <= p.n0 && s.n1 <= p.n1 && s.n2 <= p.n2
  {
    Shape(PaddedSize(s.n0), PaddedSize(s.n1), PaddedSize(s.n2))
  }

  /** The start of the window on each axis, `idx` in the source. */
  function Offsets(s: Shape): (o: Shape)
    ensures o.n0 + s.n0 <= PaddedShape(s).n0
    ensures o.n1 + s.n1 <= PaddedShape(s).n1
    ensures o.n2 + s.n2 <= PaddedShape(s).n2
  {
    Shape(Offset(s.n0, PaddedSize(s.n0)), Offset(s.n1, PaddedSize(s.n1)), Offset(s.n2, PaddedSize(s.n2)))
  }

  /** numpy's `squeeze` on a list of extents: every axis of extent 1 is removed,
      the others keep their order. */
  function Squeeze(dims: seq<nat>): (r: seq<nat>)
    ensures 1 !in r
    ensures |r| <= |dims|
    ensures forall x :: x in r <==> x in dims && x != 1
  {
    if dims == [] then []
    else if dims[0] == 1 then Squeeze(dims[1..])
    else [dims[0]] + Squeeze(dims[1..])
  }

  /** Squeezing a single extent keeps it unless it is 1. */
  lemma SqueezeSingleton(x: nat)
    ensures Squeeze([x]) == if x == 1 then [] else [x]
  {
    assert [x][1..] == [];
  }

  /** Squeezing works axis by axis, so the kept extents keep their order and
      their number. */
  lemma {:induction false} SqueezeAppend(a: seq<nat>, b: seq<nat>)
    ensures Squeeze(a + b) == Squeeze(a) + Squeeze(b)
  {
    if a == [] {
      assert a + b == b;
    } else {
      assert (a + b)[0] == a[0];
      assert (a + b)[1..] == a[1..] + b;
      SqueezeAppend(a[1..], b);
    }
  }

  /** No padded extent is 1, so squeezing the network output of shape
      `[1, W0, W1, W2, 1]` removes exactly the batch and channel axes. */
  lemma SqueezePaddedOutput(s: Shape)
    ensures Squeeze([1, PaddedShape(s).n0, PaddedShape(s).n1, PaddedShape(s).n2, 1])
         == [PaddedShape(s).n0, PaddedShape(s).n1, PaddedShape(s).n2]
  {
    var p := PaddedShape(s);
    assert p.n0 != 1 && p.n1 != 1 && p.n2 != 1;
    assert Squeeze([1]) == [] by { assert [1][1..] == []; }
    assert Squeeze([p.n2, 1]) == [p.n2] by { assert [p.n2, 1][1..] == [1]; }
    assert Squeeze([p.n1, p.n2, 1]) == [p.n1, p.n2] by { assert [p.n1, p.n2, 1][1..] == [p.n2, 1]; }
    assert Squeeze([p.n0, p.n1, p.n2, 1]) == [p.n0, p.n1, p.n2] by {
      assert [p.n0, p.n1, p.n2, 1][1..] == [p.n1, p.n2, 1];
    }
    assert [1, p.n0, p.n1, p.n2, 1][1..] == [p.n0, p.n1, p.n2, 1];
  }
}
