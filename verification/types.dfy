/**
 * Values the data transformer works on: the raw Datum record, the
 * transformation parameters, the loaded mean map, the phase and the outcome
 * of a call.
 */
module Types {

  /** An unsigned 8-bit value, as stored in a Datum's byte string. */
  type byte = x: int | 0 <= x < 256

  datatype Option<T> = None | Some(value: T)

  /** TRAIN draws random crops and mirrors; TEST crops the centre. */
  datatype Phase = Train | Test

  /**
   * Outcome of a transform call. Every failing case is a fatal `CHECK` in
   * the C++ code, or a write outside the destination that the code does
   * not guard; here it is reported instead. The transforms report it
   * before they write, except that the paired transform has already
   * reshaped its destinations when it finds that a window does not fit.
   */
  datatype Status =
    | Ok
    | DimensionMismatch   // sample, mean map or destination dimensions disagree
    | MeanValueMismatch   // neither 1 mean value nor a divisor / multiple of the channel count
    | CountMismatch       // batch size does not fit the destination
    | NotImplemented      // a mean file with the paired data/label transform
    | InvalidParameter    // an empty list to draw from, or a scale-ratio range whose upper end is below its lower end

  /**
   * A raw (not encoded) sample: `channels x height x width` values, channel
   * major, stored as bytes in `data` or, when `data` is empty, as floats in
   * `floatData`.
   */
  datatype Datum = Datum(channels: int, height: int, width: int, data: seq<byte>, floatData: seq<real>)
  {
    /** The sample holds exactly one value per cell in the store it uses. */
    predicate WellFormed()
    {
      channels >= 0 && height >= 0 && width >= 0 &&
      (if |data| > 0 then |data| == channels * height * width
       else |floatData| == channels * height * width)
    }

    /** Number of cells. */
    function Count(): int
    {
      channels * height * width
    }
  }

  /** The mean image loaded from the mean file (`data_mean_`). */
  datatype MeanBlob = MeanBlob(channels: int, height: int, width: int, data: seq<real>)
  {
    /** One value per cell. */
    predicate WellFormed()
    {
      channels >= 0 && height >= 0 && width >= 0 && |data| == channels * height * width
    }
  }

  /** The fields of TransformationParameter the core reads. */
  datatype TransformParam = TransformParam(
    cropSize: Option<nat>,        // crop_size (0 when absent)
    cropHeight: Option<nat>,      // crop_height
    cropWidth: Option<nat>,       // crop_width
    scale: real,                  // scale
    mirror: bool,                 // mirror
    meanValue: seq<real>,         // mean_value
    multiScale: bool,             // multi_scale
    maxDistort: int,              // max_distort
    scaleRatios: seq<real>,       // scale_ratios
    fixCrop: bool,                // fix_crop
    moreFixCrop: bool,            // more_fix_crop
    isFlow: bool,                 // is_flow
    stride: int,                  // stride
    ignoreLabel: int              // ignore_label
  )
  {
    /** `crop_size()`: the configured crop side, 0 when none. */
    function CropSize(): nat
    {
      if cropSize.Some? then cropSize.value else 0
    }
  }
}
