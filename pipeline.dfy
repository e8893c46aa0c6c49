/** The per-image processing of the prediction script and the loop over the
    pairs of input image and output path. The network, volume loading and the
    resample/align/normalise steps are parameters: the script calls into
    TensorFlow and into library code for them. */
module Pipeline {
  import opened Geometry
  import opened Volumes
  import opened Buffers
  import opened Paths

  /** The network maps every box to a box of the same shape (`unet_model.predict`
      on a `[1, W0, W1, W2, 1]` tensor returns one of the same extents). */
  ghost predicate ShapePreserving(predict: Grid -> Grid) {
    forall g: Grid, s: Shape {:trigger HasShape(predict(g), s)} :: HasShape(g, s) ==> HasShape(predict(g), s)
  }

  /** A step whose result is a numpy array, hence a box. */
  ghost predicate ProducesBoxes(f: Grid -> Grid) {
    forall g: Grid {:trigger f(g)} :: IsBox(f(g))
  }

  /** `utils.load_volume` returns a numpy array, hence a box, for every path. */
  ghost predicate LoadsBoxes(load: string -> Grid) {
    forall path: string {:trigger load(path)} :: IsBox(load(path))
  }

  /** The network call on the padded volume `S`: with flipping, the average of
      the prediction of `S` and the flipped-back prediction of the flipped `S`. */
  function Predict(S: Grid, p: Shape, flipping: bool, predict: Grid -> Grid): (out: Grid)
    requires HasShape(S, p)
    requires ShapePreserving(predict)
    ensures HasShape(out, p)
  {
    if flipping then
      FlipPreservesShape(S, p);
      FlipPreservesShape(predict(Flip(S)), p);
      Blend(predict(S), Flip(predict(Flip(S))), p)
    else
      predict(S)
  }

  /** When the network already commutes with the flip on `S`, the augmentation
      changes nothing: the output is the plain prediction. */
  lemma FlippingEquivariantNetwork(S: Grid, p: Shape, predict: Grid -> Grid)
    requires HasShape(S, p)
    requires ShapePreserving(predict)
    requires predict(Flip(S)) == Flip(predict(S))
    ensures Predict(S, p, true, predict) == predict(S)
  {
    FlipInvolutive(predict(S));
    BlendSame(predict(S), p);
  }

  /** Whatever the network, the flipped-input average is itself equivariant:
      predicting the flipped volume gives the flipped prediction. */
  lemma FlippingMakesEquivariant(S: Grid, p: Shape, predict: Grid -> Grid)
    requires HasShape(S, p)
    requires ShapePreserving(predict)
    ensures HasShape(Flip(S), p)
    ensures Predict(Flip(S), p, true, predict) == Flip(Predict(S, p, true, predict))
  {
    FlipPreservesShape(S, p);
    FlipInvolutive(S);
    var a := predict(S);
    var b := predict(Flip(S));
    assert HasShape(a, p) && HasShape(b, p);
    FlipPreservesShape(b, p);
    FlipBlend(a, Flip(b), p);
    FlipInvolutive(b);
    FlipPreservesShape(a, p);
    BlendCommutes(b, Flip(a), p);
  }

  /** `pred = 255 * pred` on every voxel. */
  function Scale(g: Grid, s: Shape): (r: Grid)
    requires HasShape(g, s)
    ensures HasShape(r, s)
    ensures forall i, j, k :: 0 <= i < s.n0 && 0 <= j < s.n1 && 0 <= k < s.n2 ==>
              r[i][j][k] == 255.0 * g[i][j][k]
  {
    MapVoxels(g, s, x => 255.0 * x)
  }

  /** From the squeezed network output to the saved prediction: scaling, the
      clamp to `[0, 128]`, then the crop of the window that held the volume.
      Voxel `(i, j, k)` of the result comes from voxel `idx + (i, j, k)` of the
      output, and every voxel lies in `[0, 128]`. */
  function Postprocess(out: Grid, s: Shape): (pred: Grid)
    requires HasShape(out, PaddedShape(s))
    ensures HasShape(pred, s)
    ensures forall i, j, k :: 0 <= i < s.n0 && 0 <= j < s.n1 && 0 <= k < s.n2 ==>
              var o := Offsets(s);
              pred[i][j][k] == Clamp(255.0 * out[o.n0 + i][o.n1 + j][o.n2 + k], 0.0, 128.0) &&
              0.0 <= pred[i][j][k] <= 128.0
  {
    var p := PaddedShape(s);
    var c := ClampVoxels(Scale(out, p), p, 0.0, 128.0);
    ClampedScaledVoxels(out, p);
    Crop(c, p, Offsets(s), s)
  }

  /** Voxel by voxel, the scaled and clamped output is `Clamp(255 * x, 0, 128)`. */
  lemma ClampedScaledVoxels(out: Grid, p: Shape)
    requires HasShape(out, p)
    ensures var c := ClampVoxels(Scale(out, p), p, 0.0, 128.0);
            forall i, j, k :: 0 <= i < p.n0 && 0 <= j < p.n1 && 0 <= k < p.n2 ==>
              c[i][j][k] == Clamp(255.0 * out[i][j][k], 0.0, 128.0) && 0.0 <= c[i][j][k] <= 128.0
  {
    ClampVoxelsInRange(Scale(out, p), p, 0.0, 128.0);
  }

  /** Scaling and clamping act voxel by voxel, so cropping first would give the
      same prediction. */
  lemma PostprocessCropFirst(out: Grid, s: Shape)
    requires HasShape(out, PaddedShape(s))
    ensures var c := Crop(out, PaddedShape(s), Offsets(s), s);
            Postprocess(out, s) == ClampVoxels(Scale(c, s), s, 0.0, 128.0)
  {
    var c := Crop(out, PaddedShape(s), Offsets(s), s);
    GridExtensionality(Postprocess(out, s), ClampVoxels(Scale(c, s), s, 0.0, 128.0), s);
  }

  /** The CT clamp, applied only to CT input. */
  function Preprocess(v: Grid, s: Shape, ct: bool): (r: Grid)
    requires HasShape(v, s)
    ensures HasShape(r, s)
    ensures ct ==> forall i, j, k :: 0 <= i < s.n0 && 0 <= j < s.n1 && 0 <= k < s.n2 ==>
                     0.0 <= r[i][j][k] <= 80.0
    ensures !ct ==> r == v
  {
    if ct then ClampVoxelsInRange(v, s, 0.0, 80.0); ClampVoxels(v, s, 0.0, 80.0) else v
  }

  /** The whole processing of one loaded volume `v` of shape `s`: optional CT
      clamp, then `prepare` (resampling, alignment, min/max normalisation), zero
      padding, the network call, scaling, clamping and cropping. The result has
      the shape of the prepared volume and every voxel lies in `[0, 128]`. */
  function ProcessSpec(v: Grid, s: Shape, ct: bool, flipping: bool, prepare: Grid -> Grid, predict: Grid -> Grid)
    : (pred: Grid)
    requires HasShape(v, s)
    requires ProducesBoxes(prepare) && ShapePreserving(predict)
    ensures HasShape(pred, ShapeOf(prepare(Preprocess(v, s, ct))))
    ensures var t := ShapeOf(prepare(Preprocess(v, s, ct)));
            forall i, j, k :: 0 <= i < t.n0 && 0 <= j < t.n1 && 0 <= k < t.n2 ==> 0.0 <= pred[i][j][k] <= 128.0
  {
    var im := prepare(Preprocess(v, s, ct));
    var t := ShapeOf(im);
    Postprocess(Predict(Pad(im, t), PaddedShape(t), flipping, predict), t)
  }

  /** With a network that returns its input, padding and cropping line up: the
      prediction is the prepared volume, scaled and clamped, with or without
      flipping. */
  lemma IdentityNetworkKeepsAlignment(v: Grid, s: Shape, ct: bool, flipping: bool, prepare: Grid -> Grid)
    requires HasShape(v, s)
    requires ProducesBoxes(prepare)
    ensures var im := prepare(Preprocess(v, s, ct));
            var t := ShapeOf(im);
            ProcessSpec(v, s, ct, flipping, prepare, g => g) == ClampVoxels(Scale(im, t), t, 0.0, 128.0)
  {
    var im := prepare(Preprocess(v, s, ct));
    var t := ShapeOf(im);
    var S := Pad(im, t);
    var p := PaddedShape(t);
    var id: Grid -> Grid := g => g;
    if flipping {
      FlippingEquivariantNetwork(S, p, id);
    }
    assert Predict(S, p, flipping, id) == S;
    PostprocessCropFirst(S, t);
    CropPadRoundTrip(im, t);
  }

  /** The body of the loop for one image. The loaded volume is a fresh array, so the
      in-place clamps touch nothing the caller can see. */
  method ProcessImage(v: Grid, s: Shape, ct: bool, flipping: bool, prepare: Grid -> Grid, predict: Grid -> Grid)
    returns (pred: Grid)
    requires HasShape(v, s)
    requires ProducesBoxes(prepare) && ShapePreserving(predict)
    ensures pred == ProcessSpec(v, s, ct, flipping, prepare, predict)
  {
    var im := FromGrid(v, s);
    if ct {
      ClampCT(im);
    }
    assert Snapshot(im) == Preprocess(v, s, ct);
    var prepared := prepare(Snapshot(im));
    var t := ShapeOf(prepared);
    var S := PlaceInZeros(prepared, t);
    var p := PaddedShape(t);
    var output := Predict(Snapshot(S), p, flipping, predict);
    var scaled := FromGrid(Scale(output, p), p);
    ClampPrediction(scaled);
    pred := Crop(Snapshot(scaled), p, Offsets(t), t);
  }

  /** A prediction and the path it is saved to (`utils.save_volume`). */
  datatype Written = Written(path: string, volume: Grid)

  /** The loop over `zip(images_to_segment, path_predictions)`: one prediction per
      pair, in order, stopping at the shorter list. */
  method PredictAll(images: seq<string>, predictions: seq<string>, load: string -> Grid,
                    ct: bool, flipping: bool, prepare: Grid -> Grid, predict: Grid -> Grid)
    returns (written: seq<Written>)
    requires LoadsBoxes(load)
    requires ProducesBoxes(prepare) && ShapePreserving(predict)
    ensures |written| == if |images| <= |predictions| then |images| else |predictions|
    ensures forall n :: 0 <= n < |written| ==>
              written[n] == Written(predictions[n], ProcessSpec(load(images[n]), ShapeOf(load(images[n])), ct, flipping, prepare, predict))
  {
    written := [];
    var n := 0;
    while n < |images| && n < |predictions|
      invariant n <= |images| && n <= |predictions|
      invariant |written| == n
      invariant forall m :: 0 <= m < n ==>
                  written[m] == Written(predictions[m], ProcessSpec(load(images[m]), ShapeOf(load(images[m])), ct, flipping, prepare, predict))
    {
      var v := load(images[n]);
      assert IsBox(v);
      var pred := ProcessImage(v, ShapeOf(v), ct, flipping, prepare, predict);
      written := written + [Written(predictions[n], pred)];
      n := n + 1;
    }
  }

  /** The script end to end: the plan of inputs and outputs, then the loop. An
      accepted plan has as many output paths as images, so every image is
      processed and saved to its own path. */
  method Run(pathImages: string, pathPredictions: string, isFile: bool, folderImages: seq<string>,
             load: string -> Grid, ct: bool, flipping: bool, prepare: Grid -> Grid, predict: Grid -> Grid)
    returns (r: Result<seq<Written>>)
    requires LoadsBoxes(load)
    requires ProducesBoxes(prepare) && ShapePreserving(predict)
    ensures r.Err? <==> PlanInputs(pathImages, pathPredictions, isFile, folderImages).Err?
    ensures r.Err? ==> r.failure == PlanInputs(pathImages, pathPredictions, isFile, folderImages).failure
    ensures r.Ok? ==>
              var plan := PlanInputs(pathImages, pathPredictions, isFile, folderImages).value;
              |r.value| == |plan.images| &&
              forall n :: 0 <= n < |plan.images| ==>
                r.value[n].path == plan.predictions[n] &&
                r.value[n].volume == ProcessSpec(load(plan.images[n]), ShapeOf(load(plan.images[n])), ct, flipping, prepare, predict)
  {
    var planned := PlanInputs(pathImages, pathPredictions, isFile, folderImages);
    if planned.Err? {
      return Err(planned.failure);
    }
    var written := PredictAll(planned.value.images, planned.value.predictions, load, ct, flipping, prepare, predict);
    return Ok(written);
  }
}
