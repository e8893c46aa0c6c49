# SynthSR command-line prediction: a Dafny model

This project models the logic written out in `scripts/predict_command_line.py`,
the script that runs the SynthSR U-Net over one image or a folder of images.
The model covers five parts of the script:

- **Input kind.** A substring test on the basename of the input path tells a single image from a folder.
- **Output paths.** In the folder case each output path is derived with `os.path.join` and three chained `str.replace` calls that insert `_SynthSR` before `.nii`, `.mgz` and `.npz`.
- **The loop.** One prediction is made for each pair of image and output path.
- **Geometry.** Each extent is rounded up to a multiple of 32. The volume is centred in a zero buffer of that padded shape, and the same window is cropped out again after prediction.
- **Intensities.** CT input is clamped in place to `[0, 80]`. The network output is optionally averaged with its flipped-input counterpart, scaled by 255 and clamped in place to `[0, 128]`.

The files:

- `geometry.dfy`: the padded size and offset arithmetic, and numpy's `squeeze` of the network output.
- `volumes.dfy`: volumes as values (`Grid`, a box of reals). Also pad, crop, flip, the flip average, voxel-wise maps and the clamps.
- `buffers.dfy`: the in-place steps on `array3<real>`:
  - the masked assignments `a[a < lo] = lo` and `a[a > hi] = hi`;
  - the zero buffer and the slice write.

  The masked assignments are proved voxel by voxel against `RaiseTo` and `LowerTo`. The clamps and the zero buffer are proved equal, through `Snapshot`, to the value-level functions of `volumes.dfy`.
- `paths.dfy`: the following, built from scratch:
  - Python's `in` on strings;
  - POSIX `basename` and `join`;
  - `str.replace`;
  - the folder/file decision with its two error cases;
  - the output-path list.
- `pipeline.dfy`: the per-image processing, the loop over `zip(images, predictions)`, and the end-to-end `Run`.
  - `ProcessImage` is a method, proved equal to the specification function `ProcessSpec`.
  - `PredictAll` holds the loop.
  - The network, the loader and the resample/align/normalise steps are function parameters.

Voxel values are mathematical reals. Padding and cropping are exact, and so are flipping and clamping.

Two places where the model goes beyond or differs from a naive reading:

- **Renaming rewrites the directory too.** `str.replace` rewrites every occurrence of an extension in the joined path. If the output folder's own name contains `.nii`, `.mgz` or `.npz`, the directory part is rewritten too. Predictions then go to a sibling folder (`out.nii/a.nii` becomes `out_SynthSR.nii/a_SynthSR.nii`). `Paths.OutputPathRewritesDirectory` states this as the script behaves, and the model reproduces it.
- **`join` is POSIX `join`.** An absolute second argument wins, and no separator is added after an empty directory or one ending in '/'. This is more than plain `dir + "/" + name`; `Paths.JoinEndsWithName` shows when the two agree.

## Model

| member | source | states |
|---|---|---|
| Geometry.PaddedSize | scripts/predict_command_line.py:143 | `ceil(d/32)*32`: the result is a multiple of 32, at least `d`, and less than `d + 32` |
| Geometry.PaddedSizeIsLeast | scripts/predict_command_line.py:143 | no multiple of 32 that holds `d` is smaller than the padded extent |
| Geometry.Offset | scripts/predict_command_line.py:144 | `floor((W - d)/2)`: the window `[idx, idx + d)` fits in `W`, and the margin after it equals the margin before it or is one voxel wider |
| Geometry.PaddedShape | scripts/predict_command_line.py:143 | every padded extent is a multiple of 32 and at least the volume's extent |
| Geometry.Offsets | scripts/predict_command_line.py:144-146 | on each axis the slice `idx:idx+d` written at line 146 lies inside the zero buffer |
| Geometry.Squeeze | scripts/predict_command_line.py:156 | `np.squeeze` drops every axis of extent 1 and keeps the values of all the others; order and number are stated by `SqueezeAppend` |
| Geometry.SqueezeSingleton | scripts/predict_command_line.py:156 | a single extent is kept unless it is 1 |
| Geometry.SqueezeAppend | scripts/predict_command_line.py:156 | squeezing works axis by axis, so with `SqueezeSingleton` the kept extents keep their order and their number |
| Geometry.SqueezePaddedOutput | scripts/predict_command_line.py:156 | squeezing the `[1, W0, W1, W2, 1]` network output leaves `[W0, W1, W2]`, since no padded extent is 1 |
| Volumes.ShapeOfHasShape | scripts/predict_command_line.py:143 | for a box whose first two extents are non-zero, the extents read off its first rows (`I.shape[1:-1]`) are its shape |
| Volumes.Pad | scripts/predict_command_line.py:145-146 | the padded volume has the padded shape, holds the volume inside the window and 0 elsewhere |
| Volumes.PadInsideWindow | scripts/predict_command_line.py:146 | voxel `idx + (i, j, k)` of the buffer is voxel `(i, j, k)` of the volume |
| Volumes.PadOutsideWindow | scripts/predict_command_line.py:145 | every buffer voxel outside the window is 0 |
| Volumes.Crop | scripts/predict_command_line.py:160 | the crop has the requested shape and voxel `(i, j, k)` is voxel `o + (i, j, k)` of its source |
| Volumes.CropPadRoundTrip | scripts/predict_command_line.py:145-160 | cropping the window out of the padded volume gives back the volume exactly, shape included |
| Volumes.GridExtensionality | scripts/predict_command_line.py:160 | two boxes of one shape that agree on every voxel are equal |
| Volumes.Flip | scripts/predict_command_line.py:153 | `np.flip(·, axis=1)` keeps the number of planes and plane `i` becomes plane `n - 1 - i` |
| Volumes.FlipPreservesShape | scripts/predict_command_line.py:153 | flipping keeps the shape |
| Volumes.FlipInvolutive | scripts/predict_command_line.py:153 | flipping twice is the identity, so the flipped prediction is flipped back into line |
| Volumes.Blend | scripts/predict_command_line.py:153 | the average has the shape of its inputs and each voxel is `0.5*a + 0.5*b` |
| Volumes.BlendSame | scripts/predict_command_line.py:153 | averaging a prediction with itself gives the prediction |
| Volumes.BlendCommutes | scripts/predict_command_line.py:153 | the average does not depend on the order of its two terms |
| Volumes.FlipBlend | scripts/predict_command_line.py:153 | flipping an average is averaging the flipped terms |
| Volumes.MapVoxels | scripts/predict_command_line.py:157 | a voxel-wise map keeps the shape and applies `f` to every voxel |
| Volumes.RaiseTo | scripts/predict_command_line.py:128 | `x[x < lo] = lo` on one voxel: the result is at least `lo`, a voxel already at least `lo` is kept, and a voxel below `lo` becomes exactly `lo` |
| Volumes.LowerTo | scripts/predict_command_line.py:129 | `x[x > hi] = hi` on one voxel: the result is at most `hi`, a voxel already at most `hi` is kept, and a voxel above `hi` becomes exactly `hi` |
| Volumes.ClampBounds | scripts/predict_command_line.py:128-129 | the two masked assignments in order leave `x` in `[lo, hi]`, keep in-range voxels, and send out-of-range voxels to the bound they crossed |
| Volumes.ClampVoxels | scripts/predict_command_line.py:158-159 | clamping a box keeps its shape |
| Volumes.ClampVoxelsInRange | scripts/predict_command_line.py:158-159 | after clamping every voxel lies in `[lo, hi]` and voxels already in range keep their value |
| Volumes.ClampVoxelsIdempotent | scripts/predict_command_line.py:128-129 | clamping twice equals clamping once |
| Volumes.ClampVoxelsFixesInRange | scripts/predict_command_line.py:158-159 | a box already within the bounds is left unchanged |
| Buffers.Snapshot | scripts/predict_command_line.py:145 | the value view of an array has the array's shape and its voxels |
| Buffers.FromGrid | scripts/predict_command_line.py:123 | a fresh array holding exactly the given volume |
| Buffers.RaiseBelow | scripts/predict_command_line.py:128 | the masked assignment raises exactly the voxels below `lo` to `lo` and leaves the others |
| Buffers.LowerAbove | scripts/predict_command_line.py:129 | the masked assignment lowers exactly the voxels above `hi` to `hi` and leaves the others |
| Buffers.ClampInPlace | scripts/predict_command_line.py:128-129 | in place, every voxel ends in `[lo, hi]` and the array holds the clamp of its old contents |
| Buffers.ClampCT | scripts/predict_command_line.py:126-129 | the CT volume ends in `[0, 80]`, and it is the clamp of the old voxels |
| Buffers.ClampPrediction | scripts/predict_command_line.py:158-159 | the prediction ends in `[0, 128]`, and it is the clamp of the old voxels |
| Buffers.PlaceInZeros | scripts/predict_command_line.py:145-146 | the fresh zero buffer has the padded shape, holds the volume in the window and 0 elsewhere, and equals `Pad` |
| Paths.NiiGzHasNii | scripts/predict_command_line.py:101 | a basename containing '.nii.gz' contains '.nii' |
| Paths.FolderInputIff | scripts/predict_command_line.py:101 | the folder branch is taken exactly when none of '.nii', '.mgz', '.npz' occurs in the basename (the '.nii.gz' test is implied) |
| Paths.BasenameIsLastComponent | scripts/predict_command_line.py:92 | the basename holds no '/', ends the path, and is the whole path or follows a '/' |
| Paths.BasenameAfterSlash | scripts/predict_command_line.py:108 | the basename of `dir/name` is `name` when `name` has no '/' |
| Paths.BasenameIdentity | scripts/predict_command_line.py:108 | a name without '/' is its own basename |
| Paths.JoinEndsWithName | scripts/predict_command_line.py:108 | the joined path ends with the name; unless the name is absolute, a non-empty directory comes first, followed by '/' when it lacked one, and an empty directory leaves the name alone |
| Paths.JoinBasename | scripts/predict_command_line.py:108 | joining a name without '/' keeps it as the basename, so `basename` recovers what `join` appended |
| Paths.OccursAtShift | scripts/predict_command_line.py:108 | dropping the first character shifts every occurrence back by one |
| Paths.ReplaceAfterPrefix | scripts/predict_command_line.py:108-110 | `replace` leaves alone a prefix in which no occurrence starts, and works on the rest |
| Paths.ReplaceAbsent | scripts/predict_command_line.py:108-110 | a string that does not contain the pattern is unchanged by `replace` |
| Paths.PatternLayout | scripts/predict_command_line.py:108-110 | each of '.nii', '.mgz', '.npz' is four characters: a '.' followed by three characters that are not '.', '/' or '_' |
| Paths.NoOccurrenceAcross | scripts/predict_command_line.py:108-110 | no rewritten extension starts inside a prefix that holds none of it, when the prefix ends with '/' or the rest starts with '.', '/' or '_' |
| Paths.DotFreeLacks | scripts/predict_command_line.py:108-110 | a string without '.' contains no rewritten extension |
| Paths.DotFreeIsFree | scripts/predict_command_line.py:108-110 | a string without '.' holds none of '.nii', '.mgz', '.npz' |
| Paths.ConcatLacks | scripts/predict_command_line.py:108-110 | two strings without a given extension, put together at a '/', '.' or '_', still lack it |
| Paths.FreeConcat | scripts/predict_command_line.py:108-110 | two strings free of '.nii', '.mgz', '.npz', put together at a '/', '.' or '_', are free of them |
| Paths.ReplaceAfterFreePrefix | scripts/predict_command_line.py:108-110 | one `replace` pass keeps a prefix free of the extensions and works on the rest |
| Paths.ReplaceStartsWithBreak | scripts/predict_command_line.py:108-110 | after a `replace` pass the path still starts with '.', '/' or '_' if it did before (a tagged front starts with '_') |
| Paths.RenameAfterFreePrefix | scripts/predict_command_line.py:108-110 | the three chained replacements keep a prefix free of '.nii', '.mgz', '.npz' and work on the rest |
| Paths.ReplaceHit | scripts/predict_command_line.py:108 | an occurrence at the front is replaced and the scan goes on after it |
| Paths.NoOtherExtensionInside | scripts/predict_command_line.py:108-110 | none of '.nii', '.mgz', '.npz' starts inside another of them |
| Paths.PassOverExtension | scripts/predict_command_line.py:108-110 | after a prefix free of the extensions, one `replace` pass tags an extension exactly when it is that pass's pattern |
| Paths.FreeWithTag | scripts/predict_command_line.py:108-110 | appending '_SynthSR' keeps a string free of the extensions |
| Paths.PassHit | scripts/predict_command_line.py:108-110 | the pass whose pattern is the extension puts '_SynthSR' in front of it |
| Paths.PassMiss | scripts/predict_command_line.py:108-110 | a pass with another pattern keeps the extension as it is |
| Paths.RenameInsertsTag | scripts/predict_command_line.py:108-110 | after a prefix free of '.nii', '.mgz', '.npz', the chained replacements put '_SynthSR' before the next extension and carry on |
| Paths.RenameShort | scripts/predict_command_line.py:108-110 | a tail shorter than every pattern is unchanged |
| Paths.RenameInsertsTagAtFront | scripts/predict_command_line.py:108-110 | a rewritten extension at the front of a path gets '_SynthSR' and the rest is renamed |
| Paths.RenameExtension | scripts/predict_command_line.py:108-110 | each of '.nii.gz', '.nii', '.mgz', '.npz' becomes '_SynthSR' followed by itself |
| Paths.JoinFree | scripts/predict_command_line.py:108 | joining two strings free of '.nii', '.mgz', '.npz' gives a path free of them |
| Paths.JoinAppend | scripts/predict_command_line.py:108 | joining `stem + suffix` is joining `stem` and appending `suffix` |
| Paths.OutputPathOfPlainName | scripts/predict_command_line.py:108-110 | when none of '.nii', '.mgz', '.npz' occurs in the folder or the stem (`/home/j.doe/preds` and `/data/run.2` qualify), image `stem + ext` goes to `join(out, stem) + '_SynthSR' + ext` |
| Paths.RenameWithExtension | scripts/predict_command_line.py:108-110 | a supported extension after a path free of the rewritten extensions gets '_SynthSR' in front, and the path before it is kept |
| Paths.OutputPathRewritesDirectory | scripts/predict_command_line.py:108-110 | for a folder `dir + ext'`, with none of the rewritten extensions in `dir` or the stem, the prediction goes to `dir + '_SynthSR' + ext' + '/' + stem + '_SynthSR' + ext`, a folder other than the one given |
| Paths.JoinDirectoryAndName | scripts/predict_command_line.py:108 | a folder ending in an extension gets a '/' before the basename |
| Paths.RenameDirectoryAndName | scripts/predict_command_line.py:108-110 | both the directory's extension and the image's extension are tagged |
| Paths.RenameSlashName | scripts/predict_command_line.py:108-110 | the part `/stem + ext` after the folder becomes `/stem + '_SynthSR' + ext` |
| Paths.PredictionPaths | scripts/predict_command_line.py:108-110 | one output path per image, in the same order, each the renamed join of the folder and the image's basename |
| Paths.PlanInputs | scripts/predict_command_line.py:101-114 | the plan succeeds exactly when the extension test and `isfile` agree. A folder that is a file gives "extension not supported", and a named file that does not exist gives "file does not exist". A file gives two singleton lists. A folder gives its image list and one derived path per image. Both lists have equal lengths |
| Pipeline.Predict | scripts/predict_command_line.py:148-153 | the network call, with or without flip averaging, keeps the padded shape |
| Pipeline.FlippingEquivariantNetwork | scripts/predict_command_line.py:153 | for a network that commutes with the flip, flip averaging returns the plain prediction |
| Pipeline.FlippingMakesEquivariant | scripts/predict_command_line.py:153 | for any network, the flip-averaged prediction of the flipped volume is the flipped prediction |
| Pipeline.Scale | scripts/predict_command_line.py:157 | every voxel is multiplied by 255 and the shape is kept |
| Pipeline.Postprocess | scripts/predict_command_line.py:156-160 | the saved prediction has the volume's shape, voxel `(i, j, k)` is `Clamp(255 * out[idx + (i, j, k)], 0, 128)`, and every voxel lies in `[0, 128]` |
| Pipeline.ClampedScaledVoxels | scripts/predict_command_line.py:157-159 | before the crop each voxel is `Clamp(255 * x, 0, 128)` and lies in `[0, 128]` |
| Pipeline.PostprocessCropFirst | scripts/predict_command_line.py:157-160 | cropping before scaling and clamping gives the same prediction |
| Pipeline.Preprocess | scripts/predict_command_line.py:126-129 | CT input ends in `[0, 80]`, and other input is passed on unchanged |
| Pipeline.ProcessSpec | scripts/predict_command_line.py:123-160 | the prediction has the shape of the prepared volume and every voxel lies in `[0, 128]` |
| Pipeline.IdentityNetworkKeepsAlignment | scripts/predict_command_line.py:142-160 | with a network that returns its input, the prediction is the prepared volume scaled and clamped, with or without flipping: the crop selects exactly the voxels the slice write placed |
| Pipeline.ProcessImage | scripts/predict_command_line.py:123-160 | the imperative steps on arrays (load, CT clamp in place, zero buffer, slice write, prediction, in-place output clamp, crop) compute `ProcessSpec` |
| Pipeline.PredictAll | scripts/predict_command_line.py:120-163 | the loop writes one prediction per pair, in order, as many as the shorter list, each `ProcessSpec` of the loaded image saved to its paired path |
| Pipeline.Run | scripts/predict_command_line.py:101-163 | fails exactly when the plan fails, with the plan's error. Otherwise every image of the plan is processed and saved to its own path: none is dropped by `zip` |

## Left out

- The U-Net: construction, weights and `predict`. Lines 63-88, 150 and 153 call TensorFlow. The network is a parameter `predict`, assumed only to preserve shape.
- Volume I/O is a parameter `load`:
  - `utils.load_volume` and `utils.save_volume` (lines 123, 163) read and write image files;
  - the saved result is returned as a list of (path, prediction) pairs.

  The affine and header are not modelled.
- `utils.list_images_in_folder` and `utils.mkdir` (lines 104, 107): file-system calls. The folder's image list is an input of `PlanInputs`.
- `os.path.isfile` (lines 102, 112) is an input boolean. `os.path.abspath` (lines 91, 93) is left out. The paths given are taken to be absolute and normalised as `abspath` returns them: no trailing '/', and no '.' or '..' parts. A path like `/d/in.nii/` is classified by its empty basename here, while the script first turns it into `/d/in.nii`.
- Resampling, alignment and min/max normalisation (lines 132-139) are one parameter `prepare`:
  - the first two call external library code;
  - normalisation is floating-point division, undefined for a constant image.
- Floating-point rounding of `255 * pred` and of the `0.5 * a + 0.5 * b` average: voxels are reals. NaN values are not modelled.
- Argument parsing, printing, environment and thread settings (lines 19-66).
- Volumes are three-dimensional (`Grid` has three spatial axes). The script does not check what `load_volume` returns: a 4-D array gets through lines 142-145 and fails at the slice write of line 146. That failure is not modelled.
- Paths.Replace: requires a non-empty pattern. Python also defines `replace` for an empty one, but the script never uses it.
- Volumes.Crop: requires the window to lie inside the source. numpy would silently truncate an out-of-range slice, but the script's window always fits (`Geometry.Offsets`).
- Pipeline.ProcessSpec: the prepared volume's shape is read off its first row (`ShapeOf`). For a volume with a zero extent, the later extents read as 0 rather than numpy's values.
- Pipeline.ProcessSpec: does not state the per-voxel formula itself. That formula is stated by `Pipeline.Postprocess` and connected by `Pipeline.IdentityNetworkKeepsAlignment`.
