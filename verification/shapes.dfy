/**
 * Destination shapes: the shape InferBlobShape predicts for a sample or a
 * batch, the dimension checks a transform into a blob makes, and the
 * batch-size checks of the vector overloads.
 */
module Shapes {

  import opened Types
  import opened Arith

  /** A 4-d blob shape `num x channels x height x width`. */
  datatype Shape = Shape(num: int, channels: int, height: int, width: int)

  /**
   * InferBlobShape of one sample with `channels x height x width` cells:
   * none when the channel count is not positive or (when `checkSize`) the
   * sample is smaller than the crop; otherwise one item of the crop size,
   * or of the sample's own size without a crop.
   */
  function InferShape(crop: nat, channels: int, height: int, width: int, checkSize: bool): Option<Shape>
  {
    if channels <= 0 || (checkSize && (height < crop || width < crop)) then None
    else Some(Shape(1, channels, if crop > 0 then crop else height, if crop > 0 then crop else width))
  }

  /** InferBlobShape of a raw datum: the size check always applies. */
  function InferDatumShape(crop: nat, d: Datum): Option<Shape>
  {
    InferShape(crop, d.channels, d.height, d.width, true)
  }

  /** InferBlobShape of an image: the size check is skipped when original-size processing is on. */
  function InferImageShape(crop: nat, channels: int, rows: int, cols: int, originalSize: bool): Option<Shape>
  {
    InferShape(crop, channels, rows, cols, !originalSize)
  }

  /**
   * An image is predicted the shape of a datum of the same dimensions;
   * with original-size processing the size check is skipped, so an image
   * smaller than the crop still gets a crop-sized shape.
   */
  lemma ImageShapeAgreesWithDatum(crop: nat, d: Datum)
    ensures InferImageShape(crop, d.channels, d.height, d.width, false) == InferDatumShape(crop, d)
    ensures InferImageShape(crop, d.channels, d.height, d.width, true).Some? <==> d.channels > 0
    ensures InferDatumShape(crop, d).Some? ==>
      InferImageShape(crop, d.channels, d.height, d.width, true) == InferDatumShape(crop, d)
    ensures d.channels > 0 && crop > 0 ==>
      InferImageShape(crop, d.channels, d.height, d.width, true) == Some(Shape(1, d.channels, crop, crop))
  {
  }

  /**
   * InferBlobShape of a vector: none for an empty vector, else the shape of
   * the first element with `num` set to the vector's length.
   */
  function InferBatchShape(crop: nat, ds: seq<Datum>): Option<Shape>
  {
    if |ds| == 0 then None
    else match InferDatumShape(crop, ds[0])
      case None => None
      case Some(s) => Some(s.(num := |ds|))
  }

  /**
   * The checks of Transform(Datum, Blob*): the blob has the datum's channel
   * count, at least one item, no more rows or columns than the datum, and
   * exactly the crop size, or the datum's size without a crop.
   */
  predicate DatumFitsBlob(crop: nat, d: Datum, s: Shape)
  {
    s.channels == d.channels && s.height <= d.height && s.width <= d.width && s.num >= 1 &&
    (if crop > 0 then crop == s.height && crop == s.width
     else d.height == s.height && d.width == s.width)
  }

  /**
   * A blob shaped as InferBlobShape predicts for a datum passes the datum
   * transform's checks, and a one-item blob that passes them has exactly
   * the predicted shape.
   */
  lemma InferredShapeFits(crop: nat, d: Datum)
    requires d.WellFormed() && d.channels > 0
    ensures InferDatumShape(crop, d).Some? ==> DatumFitsBlob(crop, d, InferDatumShape(crop, d).value)
    ensures forall s :: DatumFitsBlob(crop, d, s) && s.num == 1 ==> InferDatumShape(crop, d) == Some(s)
  {
    forall s | DatumFitsBlob(crop, d, s) && s.num == 1
      ensures InferDatumShape(crop, d) == Some(s)
    {
      assert s == Shape(1, d.channels, s.height, s.width);
    }
  }

  /** A batch shape predicted for a vector holds every element of the vector that shares the first one's geometry. */
  lemma BatchShapeFitsItems(crop: nat, ds: seq<Datum>, i: int)
    requires InferBatchShape(crop, ds).Some? && 0 <= i < |ds|
    requires ds[i].channels == ds[0].channels && ds[i].height == ds[0].height && ds[i].width == ds[0].width
    ensures DatumFitsBlob(crop, ds[i], InferBatchShape(crop, ds).value)
    ensures DatumBatchFits(|ds|, InferBatchShape(crop, ds).value.num)
  {
  }

  /** Batch check of the datum-vector overload: a non-empty vector no longer than the blob. */
  predicate DatumBatchFits(count: int, num: int)
  {
    0 < count <= num
  }

  /** Batch check of the image-vector overload: a non-empty vector exactly as long as the blob. */
  predicate ImageBatchFits(count: int, num: int)
  {
    0 < count == num
  }

  /**
   * The image-vector check is the stricter one: whatever it accepts the
   * datum-vector check accepts, and the datum-vector check also accepts a
   * vector that fills only part of the blob.
   */
  lemma BatchChecksCompared(count: int, num: int)
    ensures ImageBatchFits(count, num) ==> DatumBatchFits(count, num)
    ensures DatumBatchFits(count, num) && count != num ==> !ImageBatchFits(count, num)
    ensures DatumBatchFits(1, 2) && !ImageBatchFits(1, 2)
  {
  }

  /** `Blob::offset(n)`: the first cell of item n. */
  function ItemOffset(n: int, channels: int, height: int, width: int): int
  {
    ((n * channels + 0) * height + 0) * width + 0
  }

  /**
   * Item slots of a batch do not overlap and all lie inside the blob: item
   * i occupies `[offset(i), offset(i) + C * H * W)`, which ends at or before
   * the start of item j > i and at or before the end of an `num`-item blob.
   */
  lemma ItemSlots(i: int, j: int, num: int, channels: nat, height: nat, width: nat)
    requires 0 <= i < j <= num
    ensures ItemOffset(i, channels, height, width) == i * (channels * height * width)
    ensures 0 <= ItemOffset(i, channels, height, width)
    ensures ItemOffset(i, channels, height, width) + channels * height * width
         <= ItemOffset(j, channels, height, width)
    ensures ItemOffset(j, channels, height, width) <= num * (channels * height * width)
  {
    var size := channels * height * width;
    assert ItemOffset(i, channels, height, width) == i * size;
    assert ItemOffset(j, channels, height, width) == j * size;
    MulLe(i + 1, j, size);
    MulLe(j, num, size);
  }
}
