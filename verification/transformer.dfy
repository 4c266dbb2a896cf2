/**
 * The data transformer: an object holding the transformation parameters,
 * the phase, the loaded mean map, the (growing) per-channel mean list and
 * the random generator, whose transform methods crop, mirror,
 * mean-subtract and scale samples into destination buffers and blobs.
 */
module Transformer {

  import opened Arith
  import opened Types
  import opened Layout
  import opened Geometry
  import opened Means
  import opened Pixels
  import opened Instance
  import opened Shapes
  import opened Blobs
  import opened BlobMath

  /**
   * The image library's resize of `channels` planes of `srcH x srcW` bytes
   * to `dstH x dstW`, which is not part of this model.
   */
  type Resampler = (seq<byte>, int, int, int, int, int) -> seq<byte>

  /**
   * The image library's resize of the crop rectangle (row and column
   * offset, crop height and width) of every channel of a datum to an output
   * of the given height and width, which is not part of this model. It
   * does not see the mirror decision.
   */
  type CropResampler = (Datum, int, int, int, int, int, int) -> seq<real>

  /** The geometry chosen by one call of the paired data/label transform. */
  datatype PairedPlan = PairedPlan(doMirror: bool, ratio: real, height: int, width: int,
                                   cropH: int, cropW: int, hOff: int, wOff: int)

  /** The geometry chosen by one call of the tensor-to-tensor transform. */
  datatype TensorPlan = TensorPlan(doMirror: bool, hOff: int, wOff: int)

  /**
   * The window written by a fill with cell function `f` at `base` of `s`:
   * every index of the window holds the value of the cell that lands there.
   */
  predicate WindowHolds(s: seq<real>, base: int, C: int, height: int, width: int, mirror: bool,
                        f: (int, int, int) -> real)
  {
    height > 0 && width > 0 ==>
      0 <= base && base + C * height * width <= |s| &&
      forall k :: 0 <= k < C * height * width ==> s[base + k] == Expected(f, k, height, width, mirror)
  }

  /** A written window stays written while nothing inside it changes. */
  lemma WindowHoldsKept(s: seq<real>, t: seq<real>, base: int, C: int, height: int, width: int, mirror: bool,
                        f: (int, int, int) -> real)
    requires WindowHolds(s, base, C, height, width, mirror, f) && |s| == |t|
    requires height > 0 && width > 0 ==>
      forall j :: base <= j < base + C * height * width && 0 <= j < |s| ==> s[j] == t[j]
    ensures WindowHolds(t, base, C, height, width, mirror, f)
  {
    if height > 0 && width > 0 {
      forall k | 0 <= k < C * height * width
        ensures t[base + k] == Expected(f, k, height, width, mirror)
      {
        assert s[base + k] == t[base + k];
      }
    }
  }

  /** Scaling the whole buffer scales every value of a written window. */
  lemma ScaledWindowHolds(s: seq<real>, k: real, base: int, C: int, height: int, width: int, mirror: bool,
                          f: (int, int, int) -> real)
    requires WindowHolds(s, base, C, height, width, mirror, f)
    ensures WindowHolds(Scaled(s, k), base, C, height, width, mirror, ScaleFn(f, k))
  {
    if height > 0 && width > 0 {
      forall j | 0 <= j < C * height * width
        ensures Scaled(s, k)[base + j] == Expected(ScaleFn(f, k), j, height, width, mirror)
      {
        assert s[base + j] == Expected(f, j, height, width, mirror);
      }
    }
  }

  /** The mean list after a transform has grown it for `channels` channels (an empty list stays empty). */
  function GrownMeans(m: seq<real>, channels: nat): seq<real>
  {
    if |m| > 0 then Replicated(m, channels) else m
  }

  /**
   * `Rand(l, r)` from one generator output: `raw % (int((r - l) * 10000) + 1)`
   * steps of 1/10000 above l, clamped to [l, r].
   */
  function RatioFromDraw(l: real, r: real, raw: nat): (x: real)
    requires l <= r
    ensures l <= x <= r
  {
    var steps := Trunc((r - l) * 10000.0) + 1;
    assert steps >= 1;
    var k := raw % steps;
    var v := k as real / 10000.0 + l;
    var lo := if v < l then l else v;
    if lo > r then r else lo
  }

  /**
   * `int(side * ratio + 0.5)`: a side scaled by a non-negative ratio and
   * rounded to the nearest integer (halves up); ratio 1 keeps the side.
   */
  function ScaledSide(side: int, ratio: real): (r: int)
    ensures side >= 0 && ratio >= 0.0 ==> r >= 0 && r as real - 0.5 <= side as real * ratio < r as real + 0.5
    ensures ratio == 1.0 && side >= 0 ==> r == side
  {
    var x := side as real * ratio + 0.5;
    assert side >= 0 && ratio >= 0.0 ==> x >= 0.5 by {
      if side >= 0 && ratio >= 0.0 {
        RealMulNonneg(side as real, ratio);
      }
    }
    assert x >= 0.0 ==> x.Floor as real <= x < x.Floor as real + 1.0;
    Trunc(x)
  }

  /** FillCrop, with its result stated as a written window. */
  method FillWindow(out: array<real>, base: nat, C: nat, height: nat, width: nat, mirror: bool,
                    f: (int, int, int) -> real)
    requires base + C * height * width <= out.Length
    modifies out
    ensures WindowHolds(out[..], base, C, height, width, mirror, f)
    ensures forall j :: 0 <= j < out.Length && !(base <= j < base + C * height * width) ==>
      out[j] == old(out[j])
  {
    FillCrop(out, base, C, height, width, mirror, f);
  }

  /**
   * Fills a window of `items` planes at the start of `out` with f, then
   * scales the whole buffer by k unless k is 1.
   */
  method CopyAndScale(out: array<real>, items: nat, height: nat, width: nat, mirror: bool,
                      f: (int, int, int) -> real, k: real)
    requires items * height * width <= out.Length
    modifies out
    ensures WindowHolds(out[..], 0, items, height, width, mirror, ScaleFn(f, k))
    ensures ScaledFrom(out[..], old(out[..]), items * height * width, k)
  {
    ghost var n := items * height * width;
    FillWindow(out, 0, items, height, width, mirror, f);
    ghost var filled := out[..];
    assert filled[n..] == old(out[..])[n..];
    if k != 1.0 {
      ScaleInPlace(out, k);
    } else {
      assert Scaled(filled, 1.0) == filled;
    }
    ScaledWindowHolds(filled, k, 0, items, height, width, mirror, f);
    ScaledSuffix(filled, k, n);
  }

  class DataTransformer {
    const param: TransformParam
    const phase: Phase
    /** `data_mean_`: the mean map read from the mean file, when one is configured. */
    const dataMean: Option<MeanBlob>
    /** The generator's successive raw outputs: draw i returns `gen(i)`. */
    const gen: nat -> nat
    /** `mean_values_`: the configured mean values, grown on use to one per channel. */
    var meanValues: seq<real>
    /** Number of generator outputs consumed so far. */
    var draws: nat

    /**
     * Takes the parameters and the phase; a mean file and mean values
     * cannot be configured together.
     */
    constructor (param: TransformParam, phase: Phase, dataMean: Option<MeanBlob>, gen: nat -> nat)
      requires !(dataMean.Some? && |param.meanValue| > 0)
      requires dataMean.Some? ==> dataMean.value.WellFormed()
      ensures this.param == param && this.phase == phase && this.dataMean == dataMean && this.gen == gen
      ensures meanValues == param.meanValue && draws == 0
    {
      this.param := param;
      this.phase := phase;
      this.dataMean := dataMean;
      this.gen := gen;
      meanValues := param.meanValue;
      draws := 0;
    }

    /** `Rand(n)`: the next generator output modulo n. */
    method Rand(n: int) returns (r: int)
      requires n > 0
      modifies this
      ensures r == gen(old(draws)) % n && 0 <= r < n
      ensures draws == old(draws) + 1 && meanValues == old(meanValues)
    {
      r := gen(draws) % n;
      draws := draws + 1;
    }

    /** `Rand(l, r)`: a value in [l, r] on a 1/10000 grid, from one generator output. */
    method RandRange(l: real, r: real) returns (x: real)
      requires l <= r
      modifies this
      ensures x == RatioFromDraw(l, r, gen(old(draws))) && l <= x <= r
      ensures draws == old(draws) + 1 && meanValues == old(meanValues)
    {
      var k := Rand(Trunc((r - l) * 10000.0) + 1);
      x := k as real / 10000.0 + l;
      x := if x < l then l else x;
      x := if x > r then r else x;
    }

    /** Draws consumed by the mirror decision: one, and only when mirroring is enabled. */
    function MirrorDraws(): nat
    {
      if param.mirror then 1 else 0
    }

    /** `param.mirror() && Rand(2)`: the generator is not consulted when mirroring is off. */
    method DrawMirror() returns (m: bool)
      modifies this
      ensures m == (param.mirror && gen(old(draws)) % 2 == 1)
      ensures draws == old(draws) + MirrorDraws() && meanValues == old(meanValues)
    {
      m := false;
      if param.mirror {
        var r := Rand(2);
        m := r != 0;
      }
    }

    // -------------------------------------------------------------------
    // Transform(const Datum&, Dtype*)
    // -------------------------------------------------------------------

    /** Output side for an input side: the crop size when one is set. */
    function OutSide(dim: int): int
    {
      if param.CropSize() > 0 then param.CropSize() else dim
    }

    /** The mean the single-datum transform subtracts: the mean map first, else the mean values. */
    function MeanFor(mv: seq<real>): MeanSource
    {
      if dataMean.Some? then MeanMap(dataMean.value.data)
      else if |mv| > 0 then PerChannel(mv)
      else NoMean
    }

    /** The checks made before anything is written, in the order the code makes them. */
    function DatumCheckStatus(d: Datum, mv: seq<real>): (s: Status)
      ensures s == Ok || s == DimensionMismatch || s == MeanValueMismatch
      ensures s == Ok ==> d.channels > 0 && d.height >= param.CropSize() && d.width >= param.CropSize()
      ensures s == Ok && |mv| > 0 ==> DatumMeanCheck(|mv|, d.channels)
    {
      var crop := param.CropSize();
      if d.channels <= 0 || d.height < crop || d.width < crop then DimensionMismatch
      else if dataMean.Some? && (dataMean.value.channels != d.channels || dataMean.value.height != d.height
                                 || dataMean.value.width != d.width) then DimensionMismatch
      else if |mv| > 0 && !DatumMeanCheck(|mv|, d.channels) then MeanValueMismatch
      else Ok
    }

    /** Generator outputs one successful crop choice consumes. */
    function CropDraws(): nat
    {
      if param.CropSize() > 0 && phase == Train then
        (if param.multiScale then 1 else 0) + (if param.fixCrop then 1 else 2)
      else 0
    }

    /** Generator outputs one successful single-datum transform consumes. */
    function DatumDraws(): nat
    {
      MirrorDraws() + CropDraws()
    }

    /**
     * The crop a single-datum transform chooses when the generator stands
     * at draw `d1`: in training with a crop, a multi-scale crop size first,
     * then an offset from the fixed grid or two uniform offsets; in testing
     * the centred crop. Every crop window lies inside the datum.
     */
    predicate CropChosen(d: Datum, plan: Plan, d1: nat)
    {
      var crop := param.CropSize();
      var k := if param.multiScale then 1 else 0;
      plan.height == OutSide(d.height) && plan.width == OutSide(d.width) &&
      plan.needImgproc == (param.multiScale && crop > 0 && (plan.cropH != crop || plan.cropW != crop)) &&
      (crop == 0 ==> plan.hOff == 0 && plan.wOff == 0) &&
      (crop > 0 ==>
        0 < plan.cropH && 0 <= plan.hOff && plan.hOff + plan.cropH <= d.height &&
        0 < plan.cropW && 0 <= plan.wOff && plan.wOff + plan.cropW <= d.width) &&
      (crop > 0 && phase == Test ==>
        plan.cropH == crop && plan.cropW == crop &&
        plan.hOff == CenterOffset(d.height, crop) && plan.wOff == CenterOffset(d.width, crop)) &&
      (crop > 0 && phase == Train ==>
        var sizes := CropSizes(d.height, d.width, crop, crop, param.maxDistort, param.scaleRatios);
        var offsets := FixOffsets(d.height, d.width, plan.cropH, plan.cropW, param.moreFixCrop);
        (param.multiScale ==> |sizes| > 0 && Size(plan.cropH, plan.cropW) == sizes[gen(d1) % |sizes|]) &&
        (!param.multiScale ==> plan.cropH == crop && plan.cropW == crop) &&
        (param.fixCrop ==> Offset(plan.hOff, plan.wOff) == offsets[gen(d1 + k) % |offsets|]) &&
        (!param.fixCrop ==>
          plan.hOff == RandomOffset(d.height, plan.cropH, gen(d1 + k)) &&
          plan.wOff == RandomOffset(d.width, plan.cropW, gen(d1 + k + 1))))
    }

    /** The whole plan: the mirror decision drawn at `d0`, then the crop. */
    predicate PlanChosen(d: Datum, plan: Plan, d0: nat)
    {
      plan.doMirror == (param.mirror && gen(d0) % 2 == 1) && CropChosen(d, plan, d0 + MirrorDraws())
    }

    /** The cell function of a single-datum transform under `plan` with the mean list `mv`. */
    function DatumCells(d: Datum, plan: Plan, mv: seq<real>, resample: CropResampler): (int, int, int) -> real
    {
      SingleCellFn(d, plan, resample(d, plan.hOff, plan.wOff, plan.cropH, plan.cropW, plan.height, plan.width),
                   MeanFor(mv), param.multiScale, param.isFlow, param.scale)
    }

    /**
     * Without flow channels the single-datum transform's mirrored window,
     * resampled or not, is its unmirrored window with every row reversed.
     */
    lemma DatumMirrorIsRowFlip(d: Datum, plan: Plan, mv: seq<real>, resample: CropResampler)
      requires !param.isFlow && plan.height > 0 && plan.width > 0 && d.channels >= 0
      ensures (d.channels * plan.height * plan.width) % plan.width == 0
      ensures FlipRows(Window(DatumCells(d, plan.(doMirror := true), mv, resample), d.channels, plan.height, plan.width, true),
                       plan.width)
           == Window(DatumCells(d, plan.(doMirror := false), mv, resample), d.channels, plan.height, plan.width, false)
    {
      var resized := resample(d, plan.hOff, plan.wOff, plan.cropH, plan.cropW, plan.height, plan.width);
      MirroredOutputIsRowFlip(d, plan, resized, MeanFor(mv), param.multiScale, param.scale);
    }

    /**
     * The crop selection of the single-datum transform. It fails when the
     * multi-scale size list is empty (`Rand(0)`) or the chosen size does not
     * fit the datum (a non-positive `Rand` range or a resize window outside
     * the image).
     */
    method ChooseCrop(d: Datum, doMirror: bool, ghost d0: nat) returns (status: Status, plan: Plan)
      requires d.height >= param.CropSize() && d.width >= param.CropSize()
      requires doMirror == (param.mirror && gen(d0) % 2 == 1) && draws == d0 + MirrorDraws()
      modifies this
      ensures status == Ok || status == InvalidParameter || status == DimensionMismatch
      ensures status == Ok ==> PlanChosen(d, plan, d0) && draws == old(draws) + CropDraws()
      ensures plan.doMirror == doMirror && meanValues == old(meanValues)
    {
      var crop := param.CropSize();
      status := Ok;
      plan := Plan(doMirror, 0, 0, 0, 0, d.height, d.width, false);
      if crop == 0 {
        return;
      }
      if phase == Train {
        status, plan := ChooseTrainCrop(d, doMirror);
      } else {
        plan := Plan(doMirror, CenterOffset(d.height, crop), CenterOffset(d.width, crop), crop, crop, crop, crop, false);
      }
    }

    /** The training crop: the crop size (drawn in multi-scale mode), then its offsets. */
    method ChooseTrainCrop(d: Datum, doMirror: bool) returns (status: Status, plan: Plan)
      requires param.CropSize() > 0 && phase == Train
      requires d.height >= param.CropSize() && d.width >= param.CropSize()
      modifies this
      ensures status == Ok || status == InvalidParameter || status == DimensionMismatch
      ensures status == Ok ==> CropChosen(d, plan, old(draws)) && draws == old(draws) + CropDraws()
      ensures plan.doMirror == doMirror && meanValues == old(meanValues)
    {
      var crop := param.CropSize();
      plan := Plan(doMirror, 0, 0, 0, 0, crop, crop, false);
      var cropH, cropW;
      status, cropH, cropW := DrawCropSize(d);
      if status != Ok {
        return;
      }
      var hOff, wOff := DrawCropOffset(d, cropH, cropW);
      var needImgproc := param.multiScale && (cropH != crop || cropW != crop);
      plan := Plan(doMirror, hOff, wOff, cropH, cropW, crop, crop, needImgproc);
    }

    /**
     * The training crop size: drawn from the multi-scale list, else the crop
     * size itself; it must fit the datum.
     */
    method DrawCropSize(d: Datum) returns (status: Status, cropH: int, cropW: int)
      requires param.CropSize() > 0 && phase == Train
      requires d.height >= param.CropSize() && d.width >= param.CropSize()
      modifies this
      ensures status == Ok || status == InvalidParameter || status == DimensionMismatch
      ensures status == Ok ==> 0 < cropH <= d.height && 0 < cropW <= d.width
      ensures status == Ok && param.multiScale ==>
        var sizes := CropSizes(d.height, d.width, param.CropSize(), param.CropSize(), param.maxDistort, param.scaleRatios);
        |sizes| > 0 && Size(cropH, cropW) == sizes[gen(old(draws)) % |sizes|] && draws == old(draws) + 1
      ensures status == Ok && !param.multiScale ==>
        cropH == param.CropSize() && cropW == param.CropSize() && draws == old(draws)
      ensures meanValues == old(meanValues)
    {
      var crop := param.CropSize();
      status := Ok;
      if param.multiScale {
        var sizes := FillCropSize(d.height, d.width, crop, crop, param.maxDistort, param.scaleRatios);
        if |sizes| == 0 {
          status, cropH, cropW := InvalidParameter, 0, 0;
          return;
        }
        var sel := Rand(|sizes|);
        cropH, cropW := sizes[sel].h, sizes[sel].w;
      } else {
        cropH, cropW := crop, crop;
      }
      if !(0 < cropH <= d.height && 0 < cropW <= d.width) {
        // Rand of a non-positive range, or a resize window outside the image
        status := DimensionMismatch;
      }
    }

    /** The training offsets: one of the fixed offsets, or two uniform draws. */
    method DrawCropOffset(d: Datum, cropH: int, cropW: int) returns (hOff: int, wOff: int)
      requires 0 < cropH <= d.height && 0 < cropW <= d.width
      modifies this
      ensures 0 <= hOff && hOff + cropH <= d.height && 0 <= wOff && wOff + cropW <= d.width
      ensures param.fixCrop ==>
        Offset(hOff, wOff) == FixOffsets(d.height, d.width, cropH, cropW, param.moreFixCrop)[gen(old(draws)) % (if param.moreFixCrop then 13 else 5)] &&
        draws == old(draws) + 1
      ensures !param.fixCrop ==>
        hOff == RandomOffset(d.height, cropH, gen(old(draws))) &&
        wOff == RandomOffset(d.width, cropW, gen(old(draws) + 1)) && draws == old(draws) + 2
      ensures meanValues == old(meanValues)
    {
      if param.fixCrop {
        var offsets := FixOffsets(d.height, d.width, cropH, cropW, param.moreFixCrop);
        var sel := Rand(|offsets|);
        hOff, wOff := offsets[sel].h, offsets[sel].w;
      } else {
        hOff := Rand(d.height - cropH + 1);
        wOff := Rand(d.width - cropW + 1);
      }
    }

    /**
     * Transform(const Datum&, Dtype*): writes the cropped, possibly mirrored,
     * mean-subtracted and scaled datum at `out[base..]`. `resample` stands
     * for the image library's resize of a multi-scale crop.
     */
    method TransformDatum(d: Datum, out: array<real>, base: nat, resample: CropResampler)
      returns (status: Status, plan: Plan)
      requires d.WellFormed()
      requires base + d.channels * OutSide(d.height) * OutSide(d.width) <= out.Length
      modifies this, out
      ensures DatumCheckStatus(d, old(meanValues)) != Ok ==> status == DatumCheckStatus(d, old(meanValues))
      ensures status == Ok ==> DatumCheckStatus(d, old(meanValues)) == Ok
      ensures status == Ok ==> meanValues == GrownMeans(old(meanValues), d.channels)
      ensures status == Ok ==> PlanChosen(d, plan, old(draws)) && draws == old(draws) + DatumDraws()
      ensures status == Ok ==> plan.height == OutSide(d.height) && plan.width == OutSide(d.width)
      ensures status == Ok ==>
        WindowHolds(out[..], base, d.channels, plan.height, plan.width, plan.doMirror,
                    DatumCells(d, plan, meanValues, resample))
      ensures status != Ok ==> out[..] == old(out[..])
      ensures forall j :: 0 <= j < out.Length && !(base <= j < base + d.channels * OutSide(d.height) * OutSide(d.width)) ==>
        out[j] == old(out[j])
    {
      status, plan := PlanDatum(d);
      if status != Ok {
        return;
      }
      FillWindow(out, base, d.channels, plan.height, plan.width, plan.doMirror, DatumCells(d, plan, meanValues, resample));
    }

    /**
     * Everything the single-datum transform does before writing: the mirror
     * decision, the checks, the growth of the mean list and the crop.
     */
    method PlanDatum(d: Datum) returns (status: Status, plan: Plan)
      requires d.WellFormed()
      modifies this
      ensures DatumCheckStatus(d, old(meanValues)) != Ok ==> status == DatumCheckStatus(d, old(meanValues))
      ensures status == Ok ==> DatumCheckStatus(d, old(meanValues)) == Ok
      ensures status == Ok ==> meanValues == GrownMeans(old(meanValues), d.channels)
      ensures status == Ok ==> PlanChosen(d, plan, old(draws)) && draws == old(draws) + DatumDraws()
      ensures status == Ok ==> plan.height == OutSide(d.height) && plan.width == OutSide(d.width)
    {
      var doMirror := DrawMirror();
      plan := Plan(false, 0, 0, 0, 0, 0, 0, false);
      status := DatumCheckStatus(d, meanValues);
      if status != Ok {
        return;
      }
      if |meanValues| > 0 {
        meanValues := GrowForDatum(meanValues, d.channels);
      }
      status, plan := ChooseCrop(d, doMirror, old(draws));
    }

    /**
     * Every cell a single-datum transform reads without resampling is a cell
     * of the datum: the chosen window lies inside it.
     */
    lemma PlanReadsInsideDatum(d: Datum, plan: Plan, d0: nat, c: int, h: int, w: int)
      requires d.WellFormed() && d.height > 0 && d.width > 0
      requires PlanChosen(d, plan, d0) && !plan.needImgproc
      requires 0 <= c < d.channels && 0 <= h < plan.height && 0 <= w < plan.width
      ensures 0 <= SourceIndex(d, plan, c, h, w) < d.Count()
      ensures |d.data| > 0 ==> 0 <= SourceIndex(d, plan, c, h, w) < |d.data|
      ensures |d.data| == 0 ==> 0 <= SourceIndex(d, plan, c, h, w) < |d.floatData|
    {
      if param.CropSize() > 0 {
        assert plan.cropH == plan.height && plan.cropW == plan.width;
      }
      SourceIndexInDatum(d, plan, c, h, w);
    }

    lemma FirstItemFits(num: nat, C: nat, h: nat, w: nat)
      requires num >= 1
      ensures C * h * w <= num * C * h * w
    {
      assert num * C * h * w == num * (C * h * w);
      MulLe(1, num, C * h * w);
    }

    // -------------------------------------------------------------------
    // Transform(const Datum&, Blob*) and Transform(const vector<Datum>&, Blob*)
    // -------------------------------------------------------------------

    /**
     * Transform(const Datum&, Blob*) for a raw datum: the blob must have the
     * datum's channel count, at least one item, and the crop size (or the
     * datum's size); the datum is then written at the start of the blob.
     */
    method TransformDatumToBlob(d: Datum, blob: Blob, resample: CropResampler) returns (status: Status, plan: Plan)
      requires d.WellFormed() && blob.Valid()
      modifies this, blob.data
      ensures !DatumFitsBlob(param.CropSize(), d, blob.GetShape()) ==>
        status == DimensionMismatch && blob.data[..] == old(blob.data[..]) &&
        draws == old(draws) && meanValues == old(meanValues)
      ensures status == Ok ==> DatumFitsBlob(param.CropSize(), d, blob.GetShape())
      ensures status == Ok ==> DatumCheckStatus(d, old(meanValues)) == Ok
      ensures status == Ok ==> meanValues == GrownMeans(old(meanValues), d.channels)
      ensures status == Ok ==> PlanChosen(d, plan, old(draws)) && draws == old(draws) + DatumDraws()
      ensures status == Ok ==> plan.height == blob.height && plan.width == blob.width
      ensures status == Ok ==>
        WindowHolds(blob.data[..], 0, d.channels, plan.height, plan.width, plan.doMirror,
                    DatumCells(d, plan, meanValues, resample))
    {
      plan := Plan(false, 0, 0, 0, 0, 0, 0, false);
      if !DatumFitsBlob(param.CropSize(), d, blob.GetShape()) {
        status := DimensionMismatch;
        return;
      }
      FirstItemFits(blob.num, blob.channels, blob.height, blob.width);
      assert d.channels * OutSide(d.height) * OutSide(d.width) == blob.channels * blob.height * blob.width;
      status, plan := TransformDatum(d, blob.data, 0, resample);
    }

    /**
     * The first |plans| items of a batch with item geometry `C x h x w` are
     * written in `s`, item j by the plan drawn for it at draw `d0 + j * DatumDraws()`.
     */
    predicate BatchWritten(ds: seq<Datum>, plans: seq<Plan>, s: seq<real>, C: nat, h: nat, w: nat, d0: nat,
                           mv: seq<real>, resample: CropResampler)
    {
      |plans| <= |ds| &&
      forall j {:trigger plans[j]} :: 0 <= j < |plans| ==>
        DatumFitsBlob(param.CropSize(), ds[j], Shape(1, C, h, w)) &&
        PlanChosen(ds[j], plans[j], d0 + j * DatumDraws()) &&
        WindowHolds(s, ItemOffset(j, C, h, w), C, plans[j].height, plans[j].width,
                    plans[j].doMirror, DatumCells(ds[j], plans[j], mv, resample))
    }

    /** After the first item the mean list has its grown form, which later items leave as it is. */
    predicate MeansSettled(mv0: seq<real>, C: nat)
      reads this
    {
      C > 0 && meanValues == GrownMeans(mv0, C) && (|mv0| > 0 ==> PairedMeanCheck(|mv0|, C))
    }

    /**
     * Transform(const vector<Datum>&, Blob*): a non-empty vector no longer
     * than the blob; item i is checked against a one-item blob of the same
     * geometry and written at `offset(i)`. The cells after the last item
     * are left as they were.
     */
    method TransformDatumBatch(ds: seq<Datum>, blob: Blob, resample: CropResampler)
      returns (status: Status, plans: seq<Plan>)
      requires blob.Valid() && forall i :: 0 <= i < |ds| ==> ds[i].WellFormed()
      modifies this, blob.data
      ensures !DatumBatchFits(|ds|, blob.num) ==> status == CountMismatch && blob.data[..] == old(blob.data[..])
      ensures status == Ok ==> DatumBatchFits(|ds|, blob.num) && |plans| == |ds|
      ensures status == Ok ==> meanValues == GrownMeans(old(meanValues), blob.channels)
      ensures status == Ok ==> draws == old(draws) + |ds| * DatumDraws()
      ensures status == Ok ==>
        BatchWritten(ds, plans, blob.data[..], blob.channels, blob.height, blob.width, old(draws), meanValues, resample)
      ensures status == Ok ==> forall j :: 0 <= j < blob.data.Length && |ds| * (blob.channels * blob.height * blob.width) <= j ==>
        blob.data[j] == old(blob.data[j])
    {
      plans := [];
      if !DatumBatchFits(|ds|, blob.num) {
        status := CountMismatch;
        return;
      }
      var C, h, w := blob.channels, blob.height, blob.width;
      status := Ok;
      ghost var d0 := draws;
      ghost var mv0 := meanValues;
      ghost var orig := blob.data[..];
      while |plans| < |ds|
        invariant |plans| <= |ds|
        invariant draws == d0 + |plans| * DatumDraws()
        invariant |plans| == 0 ==> meanValues == mv0
        invariant |plans| > 0 ==> MeansSettled(mv0, C)
        invariant BatchWritten(ds, plans, blob.data[..], C, h, w, d0, meanValues, resample)
        invariant |orig| == blob.data.Length
        invariant forall k :: 0 <= k < |orig| && |plans| * (C * h * w) <= k ==> blob.data[k] == orig[k]
        decreases |ds| - |plans|
      {
        var plan;
        status, plan := TransformBatchItem(ds, blob, resample, plans, d0, mv0, orig);
        if status != Ok {
          return;
        }
        plans := plans + [plan];
      }
    }

    /** One iteration of the batch loop: checks item |plans| and writes it into its slot. */
    method TransformBatchItem(ds: seq<Datum>, blob: Blob, resample: CropResampler, plans: seq<Plan>,
                              ghost d0: nat, ghost mv0: seq<real>, ghost orig: seq<real>)
      returns (status: Status, plan: Plan)
      requires blob.Valid() && |plans| < |ds| <= blob.num && ds[|plans|].WellFormed()
      requires draws == d0 + |plans| * DatumDraws()
      requires |plans| == 0 ==> meanValues == mv0
      requires |plans| > 0 ==> MeansSettled(mv0, blob.channels)
      requires BatchWritten(ds, plans, blob.data[..], blob.channels, blob.height, blob.width, d0, meanValues, resample)
      requires |orig| == blob.data.Length
      requires forall k :: 0 <= k < |orig| && |plans| * (blob.channels * blob.height * blob.width) <= k ==>
        blob.data[k] == orig[k]
      modifies this, blob.data
      ensures status == Ok ==> draws == d0 + (|plans| + 1) * DatumDraws()
      ensures status == Ok ==> MeansSettled(mv0, blob.channels)
      ensures status == Ok ==>
        BatchWritten(ds, plans + [plan], blob.data[..], blob.channels, blob.height, blob.width, d0, meanValues, resample)
      ensures status == Ok ==> forall k :: 0 <= k < |orig| && (|plans| + 1) * (blob.channels * blob.height * blob.width) <= k ==>
        blob.data[k] == orig[k]
    {
      var i := |plans|;
      var C, h, w := blob.channels, blob.height, blob.width;
      var size := C * h * w;
      plan := Plan(false, 0, 0, 0, 0, 0, 0, false);
      if !DatumFitsBlob(param.CropSize(), ds[i], Shape(1, C, h, w)) {
        status := DimensionMismatch;
        return;
      }
      MulRegroup(blob.num, C, h, w);
      ItemSlots(i, i + 1, blob.num, C, h, w);
      var offset := ItemOffset(i, C, h, w);
      assert ds[i].channels * OutSide(ds[i].height) * OutSide(ds[i].width) == size;
      ghost var before := blob.data[..];
      ghost var mvBefore := meanValues;
      status, plan := TransformDatum(ds[i], blob.data, offset, resample);
      if status != Ok {
        return;
      }
      if i == 0 {
        if |mv0| > 0 {
          DatumCheckImpliesPaired(|mv0|, C);
        }
      } else if |mv0| > 0 {
        ReplicatedIdempotent(mv0, C);
      }
      assert meanValues == mvBefore || i == 0;
      BatchStep(ds, plans, plan, before, blob.data[..], C, h, w, blob.num, d0, mvBefore, meanValues, resample,
                offset, ds[i].channels * OutSide(ds[i].height) * OutSide(ds[i].width));
      MulSucc(i, DatumDraws());
      MulSucc(i, size);
    }

    /**
     * Writing item i into its own slot keeps the items before it written:
     * their slots lie before slot i, and the mean list they were written
     * with is the one item i leaves behind.
     */
    lemma BatchStep(ds: seq<Datum>, plans: seq<Plan>, plan: Plan, before: seq<real>, after: seq<real>,
                    C: nat, h: nat, w: nat, num: nat, d0: nat, mv: seq<real>, mv': seq<real>, resample: CropResampler,
                    offset: int, len: int)
      requires |plans| < |ds| <= num && |before| == |after|
      requires offset == ItemOffset(|plans|, C, h, w) && len == C * h * w
      requires BatchWritten(ds, plans, before, C, h, w, d0, mv, resample)
      requires |plans| == 0 || mv' == mv
      requires DatumFitsBlob(param.CropSize(), ds[|plans|], Shape(1, C, h, w))
      requires PlanChosen(ds[|plans|], plan, d0 + |plans| * DatumDraws())
      requires WindowHolds(after, ItemOffset(|plans|, C, h, w), C, plan.height, plan.width, plan.doMirror,
                           DatumCells(ds[|plans|], plan, mv', resample))
      requires forall k :: 0 <= k < |after| && !(offset <= k < offset + len) ==> after[k] == before[k]
      ensures BatchWritten(ds, plans + [plan], after, C, h, w, d0, mv', resample)
    {
      var i := |plans|;
      var plans' := plans + [plan];
      forall j | 0 <= j < i
        ensures WindowHolds(after, ItemOffset(j, C, h, w), C, plans'[j].height, plans'[j].width,
                            plans'[j].doMirror, DatumCells(ds[j], plans'[j], mv', resample))
      {
        ItemSlots(j, i, num, C, h, w);
        WindowHoldsKept(before, after, ItemOffset(j, C, h, w), C, plans[j].height, plans[j].width,
                        plans[j].doMirror, DatumCells(ds[j], plans[j], mv, resample));
      }
    }

    // -------------------------------------------------------------------
    // Transform(const Datum&, const Datum&, Blob*, Blob*, int)
    // -------------------------------------------------------------------

    /** The scale-ratio range of the paired transform: the two configured ratios, else [1, 1]. */
    function RatioRange(): (real, real)
    {
      if |param.scaleRatios| == 2 then (param.scaleRatios[0], param.scaleRatios[1]) else (1.0, 1.0)
    }

    /**
     * The window side of the paired transform: the crop size when set, else
     * the crop height and width when both are set, else the scaled side
     * rounded up to a multiple of the stride.
     */
    function PairedCropSide(side: int, isHeight: bool): int
      requires param.stride > 0
    {
      if param.cropSize.Some? then param.cropSize.value
      else if param.cropHeight.Some? && param.cropWidth.Some? then
        (if isHeight then param.cropHeight.value else param.cropWidth.value)
      else StrideAligned(side, param.stride)
    }

    /**
     * The window of the paired transform when the generator stands at draw
     * `d1`: the scale ratio, the scaled size, the window size, then the row
     * and column offsets, which are negative when the window is larger than
     * the scaled image.
     */
    predicate PairedWindowChosen(data: Datum, plan: PairedPlan, d1: nat)
      requires param.stride > 0
    {
      var range := RatioRange();
      range.0 <= range.1 &&
      plan.ratio == RatioFromDraw(range.0, range.1, gen(d1)) &&
      plan.height == ScaledSide(data.height, plan.ratio) && plan.width == ScaledSide(data.width, plan.ratio) &&
      plan.cropH == PairedCropSide(plan.height, true) && plan.cropW == PairedCropSide(plan.width, false) &&
      plan.hOff == PairedOffset(plan.height, plan.cropH, gen(d1 + 1)) &&
      plan.wOff == PairedOffset(plan.width, plan.cropW, gen(d1 + 2))
    }

    /**
     * At scale 1, with stride 1 and no crop override, the paired window is
     * the whole image: ratio 1, window sides equal to the datum's and both
     * offsets 0, whatever the generator drew.
     */
    lemma UnitScaleWindowIsImage(data: Datum, plan: PairedPlan, d1: nat)
      requires param.stride == 1 && RatioRange() == (1.0, 1.0)
      requires param.cropSize.None? && param.cropHeight.None?
      requires data.height >= 1 && data.width >= 1
      requires PairedWindowChosen(data, plan, d1)
      ensures plan.ratio == 1.0
      ensures plan.height == plan.cropH == data.height && plan.width == plan.cropW == data.width
      ensures plan.hOff == 0 && plan.wOff == 0
    {
      UnitWindowCoversImage(data.height, data.width, gen(d1 + 1), gen(d1 + 2));
    }

    /** The whole plan of the paired transform: the mirror decision drawn at `d0`, then the window. */
    predicate PairedPlanChosen(data: Datum, plan: PairedPlan, d0: nat)
      requires param.stride > 0
    {
      plan.doMirror == (param.mirror && gen(d0) % 2 == 1) && PairedWindowChosen(data, plan, d0 + MirrorDraws())
    }

    /**
     * The ratio and offset draws of the paired transform. `Rand(l, r)`
     * refuses a range whose upper end is below its lower end.
     */
    method ChoosePairedWindow(data: Datum, doMirror: bool) returns (status: Status, plan: PairedPlan)
      requires param.stride > 0
      modifies this
      ensures status == Ok || status == InvalidParameter
      ensures status == InvalidParameter <==> RatioRange().0 > RatioRange().1
      ensures status == Ok ==> PairedWindowChosen(data, plan, old(draws)) && draws == old(draws) + 3
      ensures plan.doMirror == doMirror && meanValues == old(meanValues)
    {
      plan := PairedPlan(doMirror, 1.0, 0, 0, 0, 0, 0, 0);
      var range := RatioRange();
      if range.0 > range.1 {
        status := InvalidParameter;
        return;
      }
      status := Ok;
      var ratio := RandRange(range.0, range.1);
      var height := ScaledSide(data.height, ratio);
      var width := ScaledSide(data.width, ratio);
      var cropH := StrideAligned(height, param.stride);
      var cropW := StrideAligned(width, param.stride);
      if param.cropSize.Some? {
        cropH, cropW := param.cropSize.value, param.cropSize.value;
      } else if param.cropHeight.Some? && param.cropWidth.Some? {
        cropH, cropW := param.cropHeight.value, param.cropWidth.value;
      }
      var hOff := DrawPairedOffset(height, cropH);
      var wOff := DrawPairedOffset(width, cropW);
      plan := PairedPlan(doMirror, ratio, height, width, cropH, cropW, hOff, wOff);
    }

    /**
     * One offset of the paired transform: minus a draw over the overhang
     * when the window is larger than the side, else a draw over the slack.
     */
    method DrawPairedOffset(side: int, crop: int) returns (off: int)
      modifies this
      ensures off == PairedOffset(side, crop, gen(old(draws)))
      ensures draws == old(draws) + 1 && meanValues == old(meanValues)
    {
      if side < crop {
        var r := Rand(crop - side + 1);
        off := -r;
      } else {
        off := Rand(side - crop + 1);
      }
    }

    /** The cell function of the data window of the paired transform. */
    function PairedDataCells(data: Datum, plan: PairedPlan, mv: seq<real>, resize: Resampler): (int, int, int) -> real
    {
      PairedDataFn(resize(data.data, data.channels, data.height, data.width, plan.height, plan.width),
                   plan.height, plan.width, plan.hOff, plan.wOff, mv, param.scale)
    }

    /** The cell function of the label window of the paired transform. */
    function PairedLabelCells(lbl: Datum, plan: PairedPlan, resize: Resampler): (int, int, int) -> real
    {
      PairedLabelFn(resize(lbl.data, lbl.channels, lbl.height, lbl.width, plan.height, plan.width),
                    plan.height, plan.width, plan.hOff, plan.wOff, param.ignoreLabel)
    }

    /** The checks of the paired transform that precede any draw or write, in the code's order. */
    function PairedCheckStatus(data: Datum, lbl: Datum, mv: seq<real>): (s: Status)
      requires data.WellFormed()
      ensures s == Ok ==> data.height == lbl.height && data.width == lbl.width && dataMean.None?
      ensures s == Ok && |mv| > 0 ==> PairedMeanCheck(|mv|, data.channels)
    {
      if data.height != lbl.height || data.width != lbl.width then DimensionMismatch
      else if dataMean.Some? then NotImplemented
      else if |mv| > 0 && !PairedMeanCheck(|mv|, data.channels) then MeanValueMismatch
      else Ok
    }

    /** Whether a window of `C x cropH x cropW` cells at item `n` lies inside a blob. */
    predicate SlotFits(b: Blob, n: int, C: int, cropH: int, cropW: int)
      reads b
    {
      0 <= n && 0 <= b.Offset(n) && b.Offset(n) + C * cropH * cropW <= b.data.Length
    }

    /**
     * The writing half of the paired transform: reshapes both blobs to the
     * window at item 0, then fills the data and the label window of item
     * `batchIter`.
     */
    method WritePaired(data: Datum, lbl: Datum, outData: Blob, outLabel: Blob, batchIter: int, plan: PairedPlan,
                       mv: seq<real>, resizeLinear: Resampler, resizeNearest: Resampler)
      returns (status: Status)
      requires data.WellFormed() && lbl.WellFormed() && plan.cropH >= 0 && plan.cropW >= 0
      requires outData.Valid() && outLabel.Valid() && outData != outLabel && outData.data != outLabel.data
      modifies outData, outLabel, outData.data, outLabel.data
      ensures status == Ok || status == DimensionMismatch
      ensures batchIter == 0 ==>
        outData.num == old(outData.num) && outData.channels == data.channels &&
        outData.height == plan.cropH && outData.width == plan.cropW &&
        outLabel.num == old(outData.num) && outLabel.channels == lbl.channels &&
        outLabel.height == plan.cropH && outLabel.width == plan.cropW
      ensures batchIter != 0 ==>
        outData.data == old(outData.data) && outLabel.data == old(outLabel.data) &&
        outData.GetShape() == old(outData.GetShape()) && outLabel.GetShape() == old(outLabel.GetShape())
      ensures status == Ok <==>
        SlotFits(outData, batchIter, data.channels, plan.cropH, plan.cropW) &&
        SlotFits(outLabel, batchIter, lbl.channels, plan.cropH, plan.cropW)
      ensures status == Ok ==>
        WindowHolds(outData.data[..], outData.Offset(batchIter), data.channels, plan.cropH, plan.cropW,
                    plan.doMirror, PairedDataCells(data, plan, mv, resizeLinear))
      ensures status == Ok ==>
        WindowHolds(outLabel.data[..], outLabel.Offset(batchIter), lbl.channels, plan.cropH, plan.cropW,
                    plan.doMirror, PairedLabelCells(lbl, plan, resizeNearest))
      ensures batchIter != 0 ==>
        (forall j :: (0 <= j < outData.data.Length &&
                      !(outData.Offset(batchIter) <= j < outData.Offset(batchIter) + data.channels * plan.cropH * plan.cropW))
                     ==> outData.data[j] == old(outData.data[j])) &&
        (forall j :: (0 <= j < outLabel.data.Length &&
                      !(outLabel.Offset(batchIter) <= j < outLabel.Offset(batchIter) + lbl.channels * plan.cropH * plan.cropW))
                     ==> outLabel.data[j] == old(outLabel.data[j]))
    {
      if batchIter == 0 {
        outData.Reshape(outData.num, data.channels, plan.cropH, plan.cropW);
        outLabel.Reshape(outData.num, lbl.channels, plan.cropH, plan.cropW);
      }
      if !SlotFits(outData, batchIter, data.channels, plan.cropH, plan.cropW) ||
         !SlotFits(outLabel, batchIter, lbl.channels, plan.cropH, plan.cropW) {
        // the code would write outside the destination
        status := DimensionMismatch;
        return;
      }
      status := Ok;
      FillWindow(outData.data, outData.Offset(batchIter), data.channels, plan.cropH, plan.cropW, plan.doMirror,
                 PairedDataCells(data, plan, mv, resizeLinear));
      ghost var written := outData.data[..];
      FillWindow(outLabel.data, outLabel.Offset(batchIter), lbl.channels, plan.cropH, plan.cropW, plan.doMirror,
                 PairedLabelCells(lbl, plan, resizeNearest));
      assert outData.data[..] == written;
    }

    /**
     * Transform(const Datum&, const Datum&, Blob*, Blob*, int): resizes the
     * data and the label by a drawn scale ratio, cuts a stride-aligned window
     * (padding outside the image with 0 for the data and the ignore label
     * for the label), mirrors both alike, and writes them as item
     * `batchIter` of the two destination blobs, which are reshaped to the
     * window when `batchIter` is 0. Rotation and blur are not part of this
     * model; `resizeLinear` and `resizeNearest` stand for the image
     * library's resize of the data and of the label.
     */
    method TransformPaired(data: Datum, lbl: Datum, outData: Blob, outLabel: Blob, batchIter: int,
                           resizeLinear: Resampler, resizeNearest: Resampler)
      returns (status: Status, plan: PairedPlan)
      requires data.WellFormed() && lbl.WellFormed() && param.stride > 0
      requires outData.Valid() && outLabel.Valid() && outData != outLabel && outData.data != outLabel.data
      modifies this, outData, outLabel, outData.data, outLabel.data
      ensures PairedCheckStatus(data, lbl, old(meanValues)) != Ok ==>
        status == PairedCheckStatus(data, lbl, old(meanValues)) &&
        outData.data == old(outData.data) && outLabel.data == old(outLabel.data) &&
        outData.data[..] == old(outData.data[..]) && outLabel.data[..] == old(outLabel.data[..])
      ensures status == Ok ==> PairedCheckStatus(data, lbl, old(meanValues)) == Ok
      ensures status == Ok ==> meanValues == GrownMeans(old(meanValues), data.channels)
      ensures status == Ok ==> PairedPlanChosen(data, plan, old(draws)) && draws == old(draws) + MirrorDraws() + 3
      ensures status == Ok && batchIter == 0 ==>
        outData.num == old(outData.num) && outData.channels == data.channels &&
        outData.height == plan.cropH && outData.width == plan.cropW &&
        outLabel.num == old(outData.num) && outLabel.channels == lbl.channels &&
        outLabel.height == plan.cropH && outLabel.width == plan.cropW
      ensures status == Ok && batchIter != 0 ==>
        outData.data == old(outData.data) && outLabel.data == old(outLabel.data) &&
        outData.GetShape() == old(outData.GetShape()) && outLabel.GetShape() == old(outLabel.GetShape())
      ensures status == Ok ==>
        SlotFits(outData, batchIter, data.channels, plan.cropH, plan.cropW) &&
        SlotFits(outLabel, batchIter, lbl.channels, plan.cropH, plan.cropW)
      ensures status == Ok ==>
        WindowHolds(outData.data[..], outData.Offset(batchIter), data.channels, plan.cropH, plan.cropW,
                    plan.doMirror, PairedDataCells(data, plan, meanValues, resizeLinear))
      ensures status == Ok ==>
        WindowHolds(outLabel.data[..], outLabel.Offset(batchIter), lbl.channels, plan.cropH, plan.cropW,
                    plan.doMirror, PairedLabelCells(lbl, plan, resizeNearest))
      ensures status == Ok && batchIter != 0 ==>
        (forall j :: (0 <= j < outData.data.Length &&
                      !(outData.Offset(batchIter) <= j < outData.Offset(batchIter) + data.channels * plan.cropH * plan.cropW))
                     ==> outData.data[j] == old(outData.data[j])) &&
        (forall j :: (0 <= j < outLabel.data.Length &&
                      !(outLabel.Offset(batchIter) <= j < outLabel.Offset(batchIter) + lbl.channels * plan.cropH * plan.cropW))
                     ==> outLabel.data[j] == old(outLabel.data[j]))
    {
      var doMirror := DrawMirror();
      plan := PairedPlan(doMirror, 1.0, 0, 0, 0, 0, 0, 0);
      status := PairedCheckStatus(data, lbl, meanValues);
      if status != Ok {
        return;
      }
      if |meanValues| > 0 {
        meanValues := GrowForPaired(meanValues, data.channels);
      }
      status, plan := ChoosePairedWindow(data, doMirror);
      if status != Ok {
        return;
      }
      if plan.cropH < 0 || plan.cropW < 0 {
        // Reshape refuses a negative dimension
        status := DimensionMismatch;
        return;
      }
      status := WritePaired(data, lbl, outData, outLabel, batchIter, plan, meanValues, resizeLinear, resizeNearest);
    }
    // -------------------------------------------------------------------
    // Transform(Blob*, Blob*)
    // -------------------------------------------------------------------

    /**
     * The destination shape of the tensor transform: the destination's own
     * shape, or, when it holds no cells, the input's item count and
     * channels with the crop size (or the input's size) as its sides.
     */
    function TargetShape(input: Shape, out: Shape): Shape
    {
      if out.num * out.channels * out.height * out.width != 0 then out
      else
        var crop := param.CropSize();
        Shape(input.num, input.channels, if crop > 0 then crop else input.height,
              if crop > 0 then crop else input.width)
    }

    /**
     * The checks of the tensor transform against the destination shape
     * (after any reshape), in the code's order: item count, channels and
     * sides, the crop size, the mean map's dimensions, the mean values.
     */
    function TensorCheckStatus(input: Shape, out: Shape, mv: seq<real>): (s: Status)
      ensures s == Ok || s == CountMismatch || s == DimensionMismatch || s == MeanValueMismatch
      ensures s == Ok ==>
        input.num <= out.num && input.channels == out.channels &&
        out.height == OutSide(input.height) && out.width == OutSide(input.width) &&
        out.height <= input.height && out.width <= input.width
      ensures s == Ok && dataMean.Some? ==>
        dataMean.value.channels == input.channels && dataMean.value.height == input.height &&
        dataMean.value.width == input.width
      ensures s == Ok && |mv| > 0 ==> ExactMeanCheck(|mv|, input.channels)
    {
      var crop := param.CropSize();
      if input.num > out.num then CountMismatch
      else if input.channels != out.channels || input.height < out.height || input.width < out.width then DimensionMismatch
      else if crop > 0 && (crop != out.height || crop != out.width) then DimensionMismatch
      else if crop == 0 && (input.height != out.height || input.width != out.width) then DimensionMismatch
      else if dataMean.Some? && (dataMean.value.channels != input.channels || dataMean.value.height != input.height
                                 || dataMean.value.width != input.width) then DimensionMismatch
      else if |mv| > 0 && !ExactMeanCheck(|mv|, input.channels) then MeanValueMismatch
      else Ok
    }

    /**
     * An empty destination is reshaped to exactly what InferBlobShape
     * predicts for one item of the input, with the input's item count, and
     * that shape passes all the checks of the tensor transform whenever
     * the input is at least the crop size and the mean map and mean values
     * fit the input.
     */
    lemma TargetShapeIsInferred(input: Shape, out: Shape)
      requires out.num * out.channels * out.height * out.width == 0
      requires input.num >= 0 && input.channels > 0 && input.height >= param.CropSize() && input.width >= param.CropSize()
      ensures InferShape(param.CropSize(), input.channels, input.height, input.width, true).Some?
      ensures TargetShape(input, out) ==
        InferShape(param.CropSize(), input.channels, input.height, input.width, true).value.(num := input.num)
      ensures (dataMean.None? || (dataMean.value.channels == input.channels && dataMean.value.height == input.height &&
                                  dataMean.value.width == input.width)) &&
              (|meanValues| == 0 || ExactMeanCheck(|meanValues|, input.channels)) ==>
        TensorCheckStatus(input, TargetShape(input, out), meanValues) == Ok
    {
    }

    /** Generator outputs one successful tensor transform consumes: the mirror, then two offsets in training. */
    function TensorDraws(): nat
    {
      MirrorDraws() + (if param.CropSize() > 0 && phase == Train then 2 else 0)
    }

    /**
     * The geometry of a tensor transform when the generator stands at draw
     * `d0`: the mirror decision, then uniform offsets in training, the
     * centred crop in testing, and no offset without a crop. The window
     * lies inside the input.
     */
    predicate TensorPlanChosen(input: Shape, plan: TensorPlan, d0: nat)
    {
      var crop := param.CropSize();
      var d1 := d0 + MirrorDraws();
      plan.doMirror == (param.mirror && gen(d0) % 2 == 1) &&
      (crop == 0 ==> plan.hOff == 0 && plan.wOff == 0) &&
      (crop > 0 ==>
        (crop <= input.height && crop <= input.width &&
         0 <= plan.hOff <= input.height - crop && 0 <= plan.wOff <= input.width - crop)) &&
      (crop > 0 && crop <= input.height && crop <= input.width && phase == Test ==>
        plan.hOff == CenterOffset(input.height, crop) && plan.wOff == CenterOffset(input.width, crop)) &&
      (crop > 0 && crop <= input.height && crop <= input.width && phase == Train ==>
        plan.hOff == RandomOffset(input.height, crop, gen(d1)) &&
        plan.wOff == RandomOffset(input.width, crop, gen(d1 + 1)))
    }

    /** The input after the in-place mean subtraction: the mean map first, then the mean values. */
    function InputAfterMeans(s: seq<real>, input: Shape, mv: seq<real>): seq<real>
      requires |mv| > 0 ==> ExactMeanCheck(|mv|, input.channels)
    {
      var s1 := if dataMean.Some? then MinusMeanMap(s, dataMean.value.data) else s;
      if |mv| > 0 then MinusChannelMeans(s1, mv, input.channels, input.height * input.width) else s1
    }

    /** The mirror decision and the crop offsets of the tensor transform. */
    method ChooseTensorWindow(input: Shape) returns (plan: TensorPlan)
      requires input.height >= param.CropSize() && input.width >= param.CropSize()
      modifies this
      ensures TensorPlanChosen(input, plan, old(draws)) && draws == old(draws) + TensorDraws()
      ensures meanValues == old(meanValues)
    {
      var doMirror := DrawMirror();
      var crop := param.CropSize();
      var hOff, wOff := 0, 0;
      if crop > 0 {
        if phase == Train {
          hOff := Rand(input.height - crop + 1);
          wOff := Rand(input.width - crop + 1);
        } else {
          hOff, wOff := CenterOffset(input.height, crop), CenterOffset(input.width, crop);
        }
      }
      plan := TensorPlan(doMirror, hOff, wOff);
    }

    /** Subtracts the mean map and the mean values from the input blob, in place. */
    method SubtractMeans(input: Blob)
      requires input.Valid()
      requires |meanValues| > 0 ==> ExactMeanCheck(|meanValues|, input.channels)
      modifies input.data
      ensures input.data[..] == InputAfterMeans(old(input.data[..]), input.GetShape(), meanValues)
    {
      if dataMean.Some? {
        SubtractMeanMap(input.data, dataMean.value.data);
      }
      var plane := input.height * input.width;
      if |meanValues| > 0 && input.data.Length > 0 {
        assert input.data.Length == (input.num * input.channels) * plane;
        DivModUnique(input.num * input.channels, 0, plane);
        SubtractChannelMeans(input.data, meanValues, input.channels, plane);
      }
    }

    /**
     * The writing half of the tensor transform, once the shapes have passed
     * the checks: the means leave the input, every input item's window is
     * copied into the destination, and the destination is scaled.
     */
    method WriteTensor(input: Blob, out: Blob, plan: TensorPlan)
      requires input.Valid() && out.Valid() && input != out && input.data != out.data
      requires TensorCheckStatus(input.GetShape(), out.GetShape(), meanValues) == Ok
      modifies out.data, input.data
      ensures input.data[..] == InputAfterMeans(old(input.data[..]), input.GetShape(), meanValues)
      ensures WindowHolds(out.data[..], 0, input.num * input.channels, out.height, out.width, plan.doMirror,
                          ScaleFn(BlobCellFn(input.data[..], input.channels, input.height, input.width,
                                             plan.hOff, plan.wOff, param.isFlow, plan.doMirror), param.scale))
      ensures ScaledFrom(out.data[..], old(out.data[..]), input.num * input.channels * out.height * out.width, param.scale)
    {
      SubtractMeans(input);
      var src := input.data[..];
      MulRegroup(input.num, input.channels, out.height, out.width);
      MulRegroup(out.num, out.channels, out.height, out.width);
      MulLe(input.num, out.num, input.channels * out.height * out.width);
      CopyAndScale(out.data, input.num * input.channels, out.height, out.width, plan.doMirror,
                   BlobCellFn(src, input.channels, input.height, input.width, plan.hOff, plan.wOff, param.isFlow, plan.doMirror),
                   param.scale);
    }

    /** An empty destination is reshaped to the target shape; any other is left as it is. */
    method PrepareTarget(input: Blob, out: Blob)
      requires input.Valid() && out.Valid() && input != out && input.data != out.data
      modifies out
      ensures out.Valid() && out.data != input.data
      ensures out.GetShape() == TargetShape(input.GetShape(), old(out.GetShape()))
      ensures old(out.Count()) != 0 ==> out.data == old(out.data)
      ensures old(out.Count()) == 0 ==> fresh(out.data)
    {
      if out.Count() == 0 {
        var shape := TargetShape(input.GetShape(), out.GetShape());
        out.Reshape(shape.num, shape.channels, shape.height, shape.width);
      }
    }

    /**
     * The tensor transform once the shapes have passed the checks: the
     * window is drawn, the means leave the input, the windows are copied
     * and the destination is scaled.
     */
    method DrawAndWriteTensor(input: Blob, out: Blob) returns (plan: TensorPlan)
      requires input.Valid() && out.Valid() && input != out && input.data != out.data
      requires TensorCheckStatus(input.GetShape(), out.GetShape(), meanValues) == Ok
      modifies this, out.data, input.data
      ensures meanValues == old(meanValues)
      ensures TensorPlanChosen(input.GetShape(), plan, old(draws)) && draws == old(draws) + TensorDraws()
      ensures input.data[..] == InputAfterMeans(old(input.data[..]), input.GetShape(), meanValues)
      ensures WindowHolds(out.data[..], 0, input.num * input.channels, out.height, out.width, plan.doMirror,
                          ScaleFn(BlobCellFn(input.data[..], input.channels, input.height, input.width,
                                             plan.hOff, plan.wOff, param.isFlow, plan.doMirror), param.scale))
      ensures ScaledFrom(out.data[..], old(out.data[..]), input.num * input.channels * out.height * out.width, param.scale)
    {
      var shape := input.GetShape();
      plan := ChooseTensorWindow(shape);
      WriteTensor(input, out, plan);
      assert input.GetShape() == shape;
    }

    /**
     * Transform(Blob*, Blob*): reshapes an empty destination, checks the
     * shapes, subtracts the means from the input in place, copies the
     * (mirrored, flow-inverted) window of every input item into the
     * destination, and scales the whole destination.
     */
    method TransformBlob(input: Blob, out: Blob) returns (status: Status, plan: TensorPlan)
      requires input.Valid() && out.Valid() && input != out && input.data != out.data
      modifies this, out, out.data, input.data
      ensures out.Valid()
      ensures out.GetShape() == TargetShape(input.GetShape(), old(out.GetShape()))
      ensures old(out.Count()) != 0 ==> out.data == old(out.data)
      ensures status == TensorCheckStatus(input.GetShape(), out.GetShape(), old(meanValues))
      ensures meanValues == old(meanValues)
      ensures status != Ok ==> input.data[..] == old(input.data[..])
      ensures status != Ok && old(out.Count()) != 0 ==> out.data[..] == old(out.data[..])
      ensures status == Ok ==> TensorPlanChosen(input.GetShape(), plan, old(draws)) && draws == old(draws) + TensorDraws()
      ensures status == Ok ==> input.data[..] == InputAfterMeans(old(input.data[..]), input.GetShape(), meanValues)
      ensures status == Ok ==>
        WindowHolds(out.data[..], 0, input.num * input.channels, out.height, out.width, plan.doMirror,
                    ScaleFn(BlobCellFn(input.data[..], input.channels, input.height, input.width,
                                       plan.hOff, plan.wOff, param.isFlow, plan.doMirror), param.scale))
      ensures status == Ok && old(out.Count()) != 0 ==>
        ScaledFrom(out.data[..], old(out.data[..]), input.num * input.channels * out.height * out.width, param.scale)
    {
      PrepareTarget(input, out);
      plan := TensorPlan(false, 0, 0);
      status := TensorCheckStatus(input.GetShape(), out.GetShape(), meanValues);
      if status != Ok {
        return;
      }
      ghost var before := out.data[..];
      assert old(out.Count()) != 0 ==> before == old(out.data[..]);
      plan := DrawAndWriteTensor(input, out);
    }

    // -------------------------------------------------------------------
    // Transform_aug(Datum&, bool) without augmentation
    // -------------------------------------------------------------------

    /**
     * Transform_aug(datum_label, false): picks the largest instance id of
     * channel 1 of the label (ignore label skipped); with none above 0 the
     * label is left alone, otherwise one id in [1, max] is drawn and every
     * cell of every channel becomes 1 where it holds that id and 0
     * elsewhere. Ids are read as unsigned bytes (see MaxIdAsWritten for the
     * signed reading of the code).
     */
    method TransformAug(lbl: array<byte>, channels: nat, height: nat, width: nat) returns (chosen: Option<int>)
      requires 2 * (height * width) <= lbl.Length && channels * (height * width) <= lbl.Length
      modifies this, lbl
      ensures var m := MaxId(old(lbl[height * width..2 * (height * width)]), param.ignoreLabel);
        (m == 0 <==> chosen.None?) &&
        (m == 0 ==> lbl[..] == old(lbl[..]) && draws == old(draws)) &&
        (m > 0 ==> 1 <= chosen.value <= m && chosen.value == gen(old(draws)) % m + 1 && draws == old(draws) + 1)
      ensures chosen.Some? ==>
        lbl[..channels * (height * width)] == Binarized(old(lbl[..channels * (height * width)]), chosen.value) &&
        lbl[channels * (height * width)..] == old(lbl[channels * (height * width)..])
      ensures meanValues == old(meanValues)
    {
      var plane := height * width;
      var maxIdx := ScanMaxId(lbl, plane, param.ignoreLabel);
      if maxIdx == 0 {
        return None;
      }
      var r := Rand(maxIdx);
      chosen := Some(r + 1);
      BinarizeInPlace(lbl, channels * plane, r + 1);
    }
  }
}
