# Caffe data transformer, modelled in Dafny

This project models the core of Caffe's `DataTransformer` (`src/caffe/data_transformer.cpp`). That core is the
object that turns a training sample (a `Datum`, or a 4-d `Blob`) into network input. It does the following:

- checks the sample against the destination shape;
- grows its per-channel mean-value cache to one entry per channel;
- picks a crop window:
  - the centred window in the TEST phase;
  - in the TRAIN phase, a fixed grid of offsets, uniform offsets, or a multi-scale crop size;
  - the stride-aligned, possibly padded window of the paired data/label transform;
- mirrors the window (with the `255 - v` inversion of even flow channels);
- subtracts the mean map or the mean values, and scales the result.

It also models the instance-selection step of `Transform_aug`, which rewrites a label in place into a 0/1 mask of
one drawn instance id, and `InferBlobShape`.

The transformer is a class, `Transformer.DataTransformer`:

- `param`, `phase` and the loaded mean map are constants.
- The mean-value list `meanValues` is a field that the transform methods reassign.
- The random generator is a sequence of raw outputs `gen`, with a draw counter `draws`. `Rand(n)` returns
  `gen(draws) % n` and advances the counter. Each transform states which draws it consumed and how its crop and
  mirror decision follow from them.

Destinations are arrays that the fill loops write in place:

- the `Dtype*` buffer is a `real` array;
- a `Blob` is a class whose `Reshape` replaces its storage;
- a label string is a byte array.

Every `CHECK` of a transform body that aborts the process in C++ is reported here as a `Status`. The
transforms check before they write, except the paired transform, which reshapes its destinations first (as the
C++ does) and then reports a window that would not fit. The `CHECK`s of the constructor and of `Rand` are
preconditions instead (see "Left out").

Module layout:

| module | file | what it holds |
|---|---|---|
| `Types` | `types.dfy` | `Datum`, the mean map, the parameters, `Status` |
| `Arith` | `arith.dfy` | facts about products and division |
| `Layout` | `layout.dfy` | the channel-major index map and the crop/mirror fill loop |
| `Geometry` | `geometry.dfy` | the fixed-offset grid, multi-scale crop sizes, centred, random and stride-aligned windows |
| `Means` | `means.dfy` | mean-value cache growth and its checks |
| `Pixels` | `pixels.dfy` | the value each transform writes into one cell |
| `Instance` | `instance.dfy` | the non-augmented `Transform_aug` |
| `Shapes` | `shapes.dfy` | `InferBlobShape`, destination and batch checks |
| `Blobs` | `blob.dfy` | the `Blob` class |
| `BlobMath` | `blobmath.dfy` | the in-place mean subtraction and scaling of the tensor transform |
| `Transformer` | `transformer.dfy` | the `DataTransformer` class |

## Model

| member | source | states |
|---|---|---|
| Geometry.FixOffsets | src/caffe/data_transformer.cpp:50-75 | exactly 5 offsets, or 13 with `more_crop`; the first is (0, 0); when the crop fits, every offset keeps the window inside the datum |
| Geometry.FixCenterIsCenterCrop | src/caffe/data_transformer.cpp:53-61 | the fifth grid offset is the test-phase centred offset whenever the slack modulo 4 is 0 or 1 |
| Geometry.CenterOffset | src/caffe/data_transformer.cpp:240-241 | the test offset `(H - crop) / 2` lies in `[0, H - crop]`, and the two margins differ by the parity of the slack |
| Geometry.RandomOffset | src/caffe/data_transformer.cpp:233-234 | a uniform offset `Rand(H - crop + 1)` lies in `[0, H - crop]` |
| Geometry.ScaleRates | src/caffe/data_transformer.cpp:77-78 | the ratio list used by fillCropSize is never empty: the configured ratios, or the four default ones |
| Geometry.Snap | src/caffe/data_transformer.cpp:93 | the snapped side is the side or the net input size, never a size within 3 of the net input size without being it, and keeps a side 3 or more away from it |
| Geometry.CropSizes | src/caffe/data_transformer.cpp:83-104 | definition of the crop-size list fillCropSize builds; its soundness, completeness, order and bounds are stated by KeptPairsSound, KeptPairsComplete, KeptPairsOrdered and CropSizesFit, and FillCropSize is proved to compute it |
| Geometry.KeptPairsSound | src/caffe/data_transformer.cpp:91-101 | every emitted ratio-index pair indexes the ratio list and has `abs(h - w) <= max_distort` |
| Geometry.KeptPairsComplete | src/caffe/data_transformer.cpp:91-101 | every index pair with `abs(h - w) <= max_distort` is emitted |
| Geometry.KeptPairsOrdered | src/caffe/data_transformer.cpp:91-101 | pairs come out in strict h-major, w-minor order, so no pair is emitted twice |
| Geometry.NoDistortionIsDiagonal | src/caffe/data_transformer.cpp:99-100 | with `max_distort = 0` there is exactly one size per ratio, and it is square for a square net input |
| Geometry.CropSizesFit | src/caffe/data_transformer.cpp:90-96 | with ratios in [0, 1] and a net input that fits, no crop size exceeds the shorter image side |
| Geometry.FillCropSize | src/caffe/data_transformer.cpp:83-104 | the two nested loops produce exactly the list CropSizes describes |
| Geometry.RowSizes | src/caffe/data_transformer.cpp:91-102 | the inner loop appends, in increasing w, the size of every pair (h, w) of row h that passes the distortion filter, with the row's snapped height and the snapped width of w |
| Geometry.StrideAlignedBounds | src/caffe/data_transformer.cpp:371-372 | `((side - 1) / stride + 1) * stride` is a multiple of the stride, at least the side and less than side + stride |
| Geometry.StrideAligned | src/caffe/data_transformer.cpp:371-372 | definition of `((side - 1) / stride + 1) * stride` with C++ division; StrideAlignedBounds states that it is the least multiple of the stride holding the side |
| Geometry.PairedOffset | src/caffe/data_transformer.cpp:385-394 | the offset lies in `[-(crop - side), 0]` when the window is larger than the image, in `[0, side - crop]` otherwise, and is 0 when they are equal |
| Geometry.UnitWindowCoversImage | src/caffe/data_transformer.cpp:371-394 | with stride 1 a side is its own aligned side, and a window as large as the side gets offset 0 whatever is drawn |
| Layout.TopIndexBijection | src/caffe/data_transformer.cpp:272-279 | `top_index` maps the cells of a `C x height x width` window one-to-one onto `[0, C * height * width)`, mirrored or not, so each output index is written exactly once |
| Layout.TopIndex | src/caffe/data_transformer.cpp:276-278 | definition of `top_index` with the mirrored column `width - 1 - w`; TopIndexBijection states that it is a bijection onto the window |
| Layout.FillCrop | src/caffe/data_transformer.cpp:249-324 | the c/h/w fill loop writes at every window index the value of the cell that lands there, and nothing outside the window |
| Layout.FillChannel | src/caffe/data_transformer.cpp:272-322 | the loop over the rows of one channel gives every cell of that channel's plane the value of the cell that lands there, and changes nothing outside the plane |
| Layout.FillRow | src/caffe/data_transformer.cpp:272-279 | one row written left to right, or right to left when mirrored |
| Layout.MirrorIsRowFlip | src/caffe/data_transformer.cpp:275-279 | the mirrored window is the unmirrored window with every row reversed |
| Layout.DestColInvolution | src/caffe/data_transformer.cpp:276 | mirroring a column twice returns it |
| Means.ReplicatedShape | src/caffe/data_transformer.cpp:179-196 | the grown list covers every channel, keeps the configured values in front, and gives channel c the value `old[c % old_size]` |
| Means.Replicated | src/caffe/data_transformer.cpp:179-196 | definition of the grown mean list, entry c being `m[c % |m|]`; ReplicatedShape and ReplicatedIdempotent state its shape and that growth happens once |
| Means.ReplicatedIdempotent | src/caffe/data_transformer.cpp:179-196 | once the check passes, the grown list has one entry per channel, passes the check again, and growing it again changes nothing |
| Means.DatumCheckImpliesPaired | src/caffe/data_transformer.cpp:180 | a list the single-datum check accepts, the paired check (line 357) accepts too |
| Means.DatumMeanCheck | src/caffe/data_transformer.cpp:180 | definition of the single-datum check: one value, or a divisor of the channel count |
| Means.PairedMeanCheck | src/caffe/data_transformer.cpp:357 | definition of the paired check: one value, one per channel, or a divisor of the channel count; DatumCheckImpliesPaired and PairedCheckDivides relate it to the others |
| Means.ExactMeanCheck | src/caffe/data_transformer.cpp:756 | definition of the image and tensor check: one value, or exactly one per channel |
| Means.GrowForDatum | src/caffe/data_transformer.cpp:179-196 | the push_back loops of the single-datum transform produce the cyclic replication |
| Means.GrowForPaired | src/caffe/data_transformer.cpp:356-366 | under the paired check, the `c - temp` loop produces the same cyclic replication |
| Means.RepeatPeriod | src/caffe/data_transformer.cpp:359-365 | copying entry `c - temp` for every further channel yields one entry per channel, entry c equal to configured value `c % temp` |
| Means.PairedCheckDivides | src/caffe/data_transformer.cpp:356-357 | a list accepted by the paired check has a size dividing the channel count, so for a positive channel count it never has more entries than there are channels |
| Means.GrowForImage | src/caffe/data_transformer.cpp:755-765 | under the image check, pushing the single value produces the same cyclic replication |
| Pixels.SourceIndexInDatum | src/caffe/data_transformer.cpp:274 | a window inside the datum reads only cells `(c * H + h_off + h) * W + w_off + w` of the datum |
| Pixels.SourceIndex | src/caffe/data_transformer.cpp:274 | definition of `data_index`; SourceIndexInDatum states that it stays inside the datum |
| Pixels.MirroredOutputIsRowFlip | src/caffe/data_transformer.cpp:272-321 | without flow channels the values do not depend on the mirror, so the mirrored output is the unmirrored output with rows reversed |
| Transformer.DataTransformer.DatumMirrorIsRowFlip | src/caffe/data_transformer.cpp:249-322 | without flow channels the mirrored output of the single-datum transform, on the resampled path too, is the unmirrored output with rows reversed |
| Pixels.FlowInvertsEvenChannels | src/caffe/data_transformer.cpp:294-302 | with flow and a mirror, even channels hold `255 - v` and odd channels `v` |
| Pixels.GridIndexInGrid | src/caffe/data_transformer.cpp:441-444 | a source position inside the resized image is a cell of the resized grid |
| Pixels.SingleCell | src/caffe/data_transformer.cpp:272-321 | definition of the value of one output cell of the single-datum transform; MirroredOutputIsRowFlip, FlowInvertsEvenChannels and TransformDatum state what it gives |
| Pixels.PairedDataCell | src/caffe/data_transformer.cpp:441-444 | definition of one data cell of the paired transform: the mean-subtracted scaled image value, or 0 outside the image |
| Pixels.PairedLabelCell | src/caffe/data_transformer.cpp:472-476 | definition of one label cell of the paired transform: the label value, or the ignore label outside the image |
| Pixels.BlobCell | src/caffe/data_transformer.cpp:979-1000 | definition of one cell of the tensor copy, with the flow inversion of even channels when mirrored; WriteTensor states the copy |
| Instance.SignedChar | src/caffe/data_transformer.cpp:498-499 | a byte read through `(int)` of a `char` lies in [-128, 127] and is congruent to the byte modulo 256, so it reads the byte back |
| Instance.ChannelMax | src/caffe/data_transformer.cpp:492-499 | the running maximum from 0 bounds every non-ignored value and is one of them, or 0 |
| Instance.ChannelMaxZero | src/caffe/data_transformer.cpp:500-501 | the maximum is 0 exactly when no non-ignored value is positive |
| Instance.MaxIdAsWritten | src/caffe/data_transformer.cpp:492-499 | definition of the id search as written (signed bytes); AsWrittenBelow128 and AsWrittenMissesHighIds state what it misses |
| Instance.MaxId | src/caffe/data_transformer.cpp:492-499 | definition of the id search with unsigned bytes; MaxIdIsLargestId states that it returns the largest id, and AgreeBelow128 that the two searches agree on ids below 128 |
| Instance.MaxIdIsLargestId | src/caffe/data_transformer.cpp:492-499 | the unsigned id search returns a value in [0, 255] that bounds every non-ignored id and is one of them, or 0 |
| Instance.AsWrittenBelow128 | src/caffe/data_transformer.cpp:498-499 | the id search as written never returns more than 127 |
| Instance.AsWrittenMissesHighIds | src/caffe/data_transformer.cpp:498-510 | on a plane whose one instance has id 200, the search as written finds 0 where the unsigned search finds 200 |
| Instance.AgreeBelow128 | src/caffe/data_transformer.cpp:498-499 | the two searches agree on planes whose ids are all below 128 |
| Instance.ScanMaxId | src/caffe/data_transformer.cpp:492-499 | the scan of channel 1 returns the unsigned maximum id of that plane |
| Instance.BinarizedCountsId | src/caffe/data_transformer.cpp:505-511 | the mask has as many 1 cells as the label had cells with the id, and all others are 0 |
| Instance.BinarizedIsBinary | src/caffe/data_transformer.cpp:510 | masking a mask again for id 1 leaves it as it is |
| Instance.BinarizeInPlace | src/caffe/data_transformer.cpp:505-511 | the in-place loop turns the first `C * H * W` label cells into the mask and leaves the rest alone |
| Shapes.InferredShapeFits | src/caffe/data_transformer.cpp:645-661 | the inferred shape passes the datum-to-blob checks, and a one-item blob that passes them has exactly the inferred shape |
| Shapes.ImageShapeAgreesWithDatum | src/caffe/data_transformer.cpp:1056-1073 | an image gets the shape a datum of its dimensions gets; with original-size processing the size check is skipped, so any image with channels gets a shape, crop-sized when a crop is set |
| Shapes.BatchShapeFitsItems | src/caffe/data_transformer.cpp:668-684 | a batch shape inferred from a vector passes the item checks and the count check for every element with the first one's geometry |
| Shapes.BatchChecksCompared | src/caffe/data_transformer.cpp:676-698 | the datum batch needs `0 < n <= num`, the Mat batch `n == num`; the second is strictly stronger |
| Shapes.ItemSlots | src/caffe/data_transformer.cpp:680-683 | item slots at `offset(i)` are disjoint and lie inside an `num`-item blob |
| BlobMath.MeanMapPerCell | src/caffe/data_transformer.cpp:954-958 | per item, cell k of the mean map is subtracted from cell k of the item |
| BlobMath.ChannelMeansPerCell | src/caffe/data_transformer.cpp:964-974 | cell (n, c, h, w) loses the mean value of its own channel c, or the single value when only one is given |
| BlobMath.SingleMeanIsPerChannel | src/caffe/data_transformer.cpp:964-974 | subtracting a single value everywhere equals subtracting it replicated per channel |
| BlobMath.AddScalar | src/caffe/data_transformer.cpp:965-971 | `caffe_add_scalar` adds the value to exactly the given range |
| BlobMath.SubtractMeanMap | src/caffe/data_transformer.cpp:950-958 | the in-place loop subtracts the mean map from every input item |
| BlobMath.SubtractChannelMeans | src/caffe/data_transformer.cpp:961-975 | the in-place loops subtract the mean values channel plane by channel plane |
| BlobMath.ScaleInPlace | src/caffe/data_transformer.cpp:1004-1007 | `caffe_scal` multiplies every cell by the scale |
| Blobs.Blob.Reshape | src/caffe/data_transformer.cpp:906-910 | the blob takes the given shape with fresh storage of exactly that many cells |
| Transformer.WindowHoldsKept | src/caffe/data_transformer.cpp:680-683 | a written item stays written while later items are written elsewhere |
| Transformer.ScaledWindowHolds | src/caffe/data_transformer.cpp:1004-1007 | scaling the whole buffer scales every value of a written window |
| Transformer.RatioFromDraw | src/caffe/data_transformer.cpp:1110-1114 | `Rand(l, r)` lies in [l, r] |
| Transformer.ScaledSide | src/caffe/data_transformer.cpp:369-370 | `int(side * ratio + 0.5)` is the nearest integer to the scaled side (halves up), never negative, and the side itself at ratio 1 |
| Transformer.FillWindow | src/caffe/data_transformer.cpp:433-445 | a fill writes the whole window and nothing else |
| Transformer.CopyAndScale | src/caffe/data_transformer.cpp:979-1007 | the copied window holds the scaled cell values; every later cell is only scaled |
| Transformer.DataTransformer.constructor | src/caffe/data_transformer.cpp:15-35 | the cache starts as the configured mean values and no draw is consumed |
| Transformer.DataTransformer.Rand | src/caffe/data_transformer.cpp:1100-1106 | the next generator output modulo n, in [0, n), consuming one draw |
| Transformer.DataTransformer.RandRange | src/caffe/data_transformer.cpp:1110-1114 | a value in [l, r] on a 1/10000 grid, consuming one draw |
| Transformer.DataTransformer.DrawMirror | src/caffe/data_transformer.cpp:159 | the mirror decision `mirror && Rand(2)`, which consumes a draw only when mirroring is on |
| Transformer.DataTransformer.DatumCheckStatus | src/caffe/data_transformer.cpp:168-181 | the checks pass only for positive channels, sides that hold the crop, and a mean-value count the channels accept |
| Transformer.DataTransformer.PlanDatum | src/caffe/data_transformer.cpp:157-245 | a failing check is reported as it is; on success the mean list has grown to one value per channel and the mirror and crop follow the draws, with the crop size (or the datum size) as output sides |
| Transformer.DataTransformer.ChooseCrop | src/caffe/data_transformer.cpp:202-243 | after the mirror draw, the window is the whole datum without a crop, the centred crop in testing, and in training the drawn crop; the plan keeps the mirror decision |
| Transformer.DataTransformer.ChooseTrainCrop | src/caffe/data_transformer.cpp:214-235 | the training crop is the drawn size followed by its drawn offsets, consuming the draws of both |
| Transformer.DataTransformer.DrawCropSize | src/caffe/data_transformer.cpp:216-225 | in multi-scale mode the size is entry `gen % n` of the crop-size list and consumes one draw; otherwise it is the crop size and consumes none; an accepted size fits the datum |
| Transformer.DataTransformer.DrawCropOffset | src/caffe/data_transformer.cpp:226-235 | with fixed crops the offset is entry `gen % 5` (or `% 13`) of the grid, with one draw; otherwise two uniform draws; the window lies inside the datum |
| Transformer.DataTransformer.TransformDatum | src/caffe/data_transformer.cpp:148-326 | the outcome is the check status; the cache grows cyclically; the plan follows the draws; every output cell holds `(v - mean) * scale` of its mirrored source cell; nothing outside the window changes |
| Transformer.DataTransformer.PlanReadsInsideDatum | src/caffe/data_transformer.cpp:274 | every cell a chosen window reads without resampling is a cell of the datum |
| Transformer.DataTransformer.TransformDatumToBlob | src/caffe/data_transformer.cpp:618-665 | the blob must pass the dimension checks; then the datum is written at the start of the blob |
| Transformer.DataTransformer.TransformDatumBatch | src/caffe/data_transformer.cpp:668-685 | a vector of `0 < n <= num` datums is written item by item at `offset(i)`; item i uses the draws after item i - 1; the cells after the last item are kept |
| Transformer.DataTransformer.TransformBatchItem | src/caffe/data_transformer.cpp:680-683 | one item is written into its slot, and earlier items and the cache stay as they were |
| Transformer.DataTransformer.BatchStep | src/caffe/data_transformer.cpp:676-684 | writing item i into its own slot, with the draws after item i - 1, extends the written prefix of the batch by item i |
| Transformer.DataTransformer.PairedCheckStatus | src/caffe/data_transformer.cpp:332-358 | the paired checks pass only for equal data and label sides, no mean file, and a mean-value count the check accepts |
| Transformer.DataTransformer.ChoosePairedWindow | src/caffe/data_transformer.cpp:341-394 | the call fails exactly when the ratio range is reversed; otherwise a drawn ratio, the rounded scaled sides, the stride-aligned or configured window and two offset draws, three draws in all, with the mirror decision kept |
| Transformer.DataTransformer.DrawPairedOffset | src/caffe/data_transformer.cpp:385-394 | one offset is the paired offset of the next draw: minus a draw over the overhang, or a draw over the slack; one draw is consumed |
| Transformer.DataTransformer.UnitScaleWindowIsImage | src/caffe/data_transformer.cpp:341-394 | at scale range [1, 1], stride 1 and no crop override, the chosen paired window has ratio 1, the datum's own sides as window and scaled sides, and both offsets 0 |
| Transformer.DataTransformer.WritePaired | src/caffe/data_transformer.cpp:396-478 | both blobs are reshaped at item 0; the data window holds the mean-subtracted scaled image or 0 outside it; the label window holds the label or the ignore label outside it |
| Transformer.DataTransformer.TransformPaired | src/caffe/data_transformer.cpp:329-478 | the outcome is the check status; the cache grows; the plan follows the draws; both windows are written at `offset(batch_iter)` with the same mirror |
| Transformer.DataTransformer.TensorCheckStatus | src/caffe/data_transformer.cpp:920-963 | the tensor checks pass only for an item count that fits, equal channels, the crop size (or the input size) as sides, a matching mean map and an exact mean-value count |
| Transformer.DataTransformer.TargetShapeIsInferred | src/caffe/data_transformer.cpp:903-912 | an empty destination is reshaped to the InferBlobShape shape with the input's item count, and that shape passes all the tensor checks whenever the input holds the crop, the mean map (if any) has the input's dimensions and the mean-value count (if any) is 1 or the channel count |
| Transformer.DataTransformer.TargetShape | src/caffe/data_transformer.cpp:903-912 | definition of the destination shape after the reshape of an empty destination; TargetShapeIsInferred relates it to InferBlobShape |
| Transformer.DataTransformer.PrepareTarget | src/caffe/data_transformer.cpp:903-912 | an empty destination gets the target shape and fresh storage; a non-empty one keeps its shape and storage |
| Transformer.DataTransformer.ChooseTensorWindow | src/caffe/data_transformer.cpp:927-943 | the mirror draw, then uniform offsets in training or centred ones in testing, inside the input |
| Transformer.DataTransformer.SubtractMeans | src/caffe/data_transformer.cpp:949-975 | the input loses the mean map and then the mean values, in place |
| Transformer.DataTransformer.WriteTensor | src/caffe/data_transformer.cpp:949-1007 | the means leave the input, each item's window is copied with mirror and flow inversion, and the destination is scaled |
| Transformer.DataTransformer.DrawAndWriteTensor | src/caffe/data_transformer.cpp:926-1007 | once the shapes pass, the window follows the draws, the input loses the means, each item's window holds its scaled input cells and every later cell is only scaled |
| Transformer.DataTransformer.TransformBlob | src/caffe/data_transformer.cpp:895-1008 | the destination shape, the check status, the draws, the input after mean subtraction, and every destination cell as the scaled, mirrored input cell |
| Transformer.DataTransformer.TransformAug | src/caffe/data_transformer.cpp:490-512 | with no id above 0 the label and the generator are untouched; otherwise the chosen id is `Rand(max) + 1` in [1, max] and the label becomes its 0/1 mask |

## Left out

- The image library: `cv::resize`, `Rotation` (`warpAffine`) and `GaussianBlur`. The multi-scale crop resample of
  the single-datum transform is a function parameter of type `CropResampler`, which receives the datum, the crop
  rectangle and the output size. The linear and nearest-neighbour
  resizes of the paired transform are parameters of type `Resampler`. The paired transform's rotation and blur
  draws, which come after the offsets, are not modelled.
- `sampleRandomCropSize`, the `Transform(cv::Mat, Blob*)` pixel loops and the original-size path: float sampling and
  `sqrt`. Of the image transform only the mean-value growth (`Means.GrowForImage`) and `InferBlobShape` are
  modelled.
- The augmented branch of `Transform_aug` (rotation, resize, float centroids and thresholds).
- Encoded datums and their decoding, mean-file loading, `InitRand` and the null-generator check: these are file
  I/O, image decoding and generator seeding. The generator is modelled only as its sequence of outputs.
- Floating-point rounding: `Dtype` and the float ratios are modelled as exact reals. `int(x)` truncation and C++
  integer division are written out.
- `src/caffe/layers/seg_cityscapes_layer.cpp` is not part of this model (file lists, threads, prefetching).
- Each failing `CHECK` of a transform body aborts the process in C++; here it is a `Status`. Where the C++ would index outside the
  destination or reshape to a negative side, the model also reports `DimensionMismatch`. An empty multi-scale size
  list (`Rand(0)`) and a scale-ratio range with its upper end below its lower end are reported as
  `InvalidParameter`.
- Transformer.DataTransformer.TransformBlob: the checks are made before the mirror and offset draws, while the C++
  interleaves them. Which draws a failing call consumed is not stated, since the process would have aborted.
- Transformer.DataTransformer.TransformDatum: after a failed check the draws already consumed are not stated.
- Transformer.DataTransformer.TransformPaired: after a failed check the draws already consumed are not stated.
- Blobs.Blob.Reshape: reshaping always allocates new storage whose contents are not stated. Caffe keeps the storage
  when the capacity suffices.
- BlobMath.SubtractMeanMap: one flat loop over the input replaces the per-item `caffe_sub` calls;
  `BlobMath.MeanMapPerCell` relates the two.
- BlobMath.SubtractChannelMeans: one loop over channel planes `n * C + c` replaces the nested n/c loops;
  `BlobMath.ChannelMeansPerCell` relates the two.
- Geometry.FixOffsets: with `more_fix_crop` the grid has 5 + 8 = 13 entries, in the order the code pushes them.
- Transformer.DataTransformer.constructor: the `CHECK`s that a mean file and mean values are not both configured
  are a precondition.
- Transformer.DataTransformer.Rand: `CHECK_GT(n, 0)` is a precondition, and callers report a range that would
  violate it before drawing: an empty multi-scale size list is `InvalidParameter`, and a drawn crop size outside
  (0, side] is `DimensionMismatch` (see the `DrawCropSize` line). `Rand(l, r)`'s `CHECK_GE(r, l)` is likewise a
  precondition of `RandRange`, and the paired transform reports a reversed range as `InvalidParameter` before
  drawing.
- Transformer.DataTransformer.DrawCropSize: a drawn multi-scale size larger than the datum, or of side 0, is
  reported as `DimensionMismatch` before the offsets are drawn. The C++ fails differently on that input: without
  `fix_crop`, `Rand(datum_height - crop_height + 1)` fails its `CHECK_GT`; with `fix_crop`, or for a side of 0,
  the image library's crop rectangle or `resize` assertion throws. Neither the abort nor the exception is
  modelled, only that the call fails.
- Transformer.DataTransformer.TransformAug: the label must hold its `channels * height * width` cells and at
  least two channel planes. The C++ reads channel 1 without checking, so a one-channel label is read past its
  end; that read is not modelled.
- Transformer.DataTransformer.TransformPaired: a positive `stride` is a precondition. The C++ divides by it
  unconditionally; a zero stride is a division by zero and a negative one is not modelled.
- Transformer.DataTransformer.WritePaired: at `batch_iter` 0 both blobs are reshaped before the window is found not to
  fit and `DimensionMismatch` is reported; the C++ performs no check there and would write outside the blob.

## Findings

| source | as written | input that shows it | evidently intended | confidence | as-written member | corrected member |
|---|---|---|---|---|---|---|
| src/caffe/data_transformer.cpp:498-499 | the instance-id search reads label bytes through `(int)` of a `char`, which is signed on common platforms, while the mask at line 510 compares them as `uint8_t` | a label whose channel 1 holds only id 200 (ignore label 255): the search finds 0, so no instance is chosen and the label is left as it is | ids compared as unsigned bytes, like the mask, so that id 200 can be chosen | medium, not executed | Instance.MaxIdAsWritten (Instance.AsWrittenMissesHighIds, Instance.AsWrittenBelow128) | Instance.MaxId (Instance.MaxIdIsLargestId, used by Transformer.DataTransformer.TransformAug) |
