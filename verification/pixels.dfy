/**
 * The value each transform writes into one destination cell: where it
 * reads the source (crop offset, mirrored column), the flow-channel
 * inversion `255 - v`, and the mean subtraction and scaling.
 */
module Pixels {

  import opened Types
  import opened Arith
  import opened Layout
  import opened Geometry

  /** Reads `s[i]`; 0 outside `s`, which a well-formed call never reaches (see SourceIndexInDatum). */
  function At(s: seq<real>, i: int): real
  {
    if 0 <= i < |s| then s[i] else 0.0
  }

  /** Reads byte `s[i]` as a number; 0 outside `s`. */
  function ByteAt(s: seq<byte>, i: int): real
  {
    if 0 <= i < |s| then s[i] as real else 0.0
  }

  /** Cell i of a datum: from the byte string when it is non-empty, else from the float list. */
  function DatumValue(d: Datum, i: int): real
  {
    if |d.data| > 0 then ByteAt(d.data, i) else At(d.floatData, i)
  }

  /** The mean a transform subtracts: the mean-file map, the per-channel values, or none. */
  datatype MeanSource = MeanMap(values: seq<real>) | PerChannel(values: seq<real>) | NoMean

  /**
   * The geometry chosen for one call: mirror decision, crop offset, crop
   * size, destination size and whether the crop is resampled first.
   */
  datatype Plan = Plan(doMirror: bool, hOff: int, wOff: int, cropH: int, cropW: int,
                       height: int, width: int, needImgproc: bool)

  /** Flow channels (even channel index of a flow pair) change sign under a horizontal mirror. */
  function FlowFlip(v: real, isFlow: bool, doMirror: bool, c: int): real
  {
    if isFlow && doMirror && c % 2 == 0 then 255.0 - v else v
  }

  // ---------------------------------------------------------------------
  // Transform(const Datum&, Dtype*)
  // ---------------------------------------------------------------------

  /** `data_index`: the source cell of destination cell (c, h, w). */
  function SourceIndex(d: Datum, plan: Plan, c: int, h: int, w: int): int
  {
    (c * d.height + plan.hOff + h) * d.width + plan.wOff + w
  }

  /**
   * The value of destination cell (c, h, w) of the single-datum transform.
   * `resized` stands for the crop of each channel resampled to the output
   * size by the image library, read only when the plan needs it.
   */
  function SingleCell(d: Datum, plan: Plan, resized: seq<real>, mean: MeanSource, multiScale: bool,
                      isFlow: bool, scale: real, c: int, h: int, w: int): real
  {
    var dataIndex := SourceIndex(d, plan, c, h, w);
    var raw := if plan.needImgproc then At(resized, (c * plan.height + h) * plan.width + w)
               else DatumValue(d, dataIndex);
    var v := FlowFlip(raw, isFlow, plan.doMirror, c);
    match mean
    case MeanMap(m) =>
      // with multi-scale the mean map is read at the uncropped position
      (v - At(m, if multiScale then (c * d.height + h) * d.width + w else dataIndex)) * scale
    case PerChannel(mv) => (v - At(mv, c)) * scale
    case NoMean => v * scale
  }

  function SingleCellFn(d: Datum, plan: Plan, resized: seq<real>, mean: MeanSource, multiScale: bool,
                        isFlow: bool, scale: real): (int, int, int) -> real
  {
    (c, h, w) => SingleCell(d, plan, resized, mean, multiScale, isFlow, scale, c, h, w)
  }

  /**
   * A crop window that lies inside the datum only ever reads cells of the
   * datum: `(c * H + h_off + h) * W + w_off + w` stays in [0, C * H * W).
   */
  lemma SourceIndexInDatum(d: Datum, plan: Plan, c: int, h: int, w: int)
    requires d.height > 0 && d.width > 0
    requires 0 <= plan.hOff && plan.hOff + plan.height <= d.height
    requires 0 <= plan.wOff && plan.wOff + plan.width <= d.width
    requires 0 <= c < d.channels && 0 <= h < plan.height && 0 <= w < plan.width
    ensures 0 <= SourceIndex(d, plan, c, h, w) < d.Count()
  {
    var row := c * d.height + plan.hOff + h;
    MulLe(c + 1, d.channels, d.height);
    assert 0 <= row < d.channels * d.height;
    RowInside(row, d.channels * d.height, d.width);
  }

  /**
   * Without flow channels the cell values do not depend on the mirror
   * decision, so the mirrored output is the unmirrored output with every
   * row reversed.
   */
  lemma MirroredOutputIsRowFlip(d: Datum, plan: Plan, resized: seq<real>, mean: MeanSource,
                                multiScale: bool, scale: real)
    requires plan.height > 0 && plan.width > 0 && d.channels >= 0
    ensures (d.channels * plan.height * plan.width) % plan.width == 0
    ensures FlipRows(Window(SingleCellFn(d, plan.(doMirror := true), resized, mean, multiScale, false, scale),
                            d.channels, plan.height, plan.width, true), plan.width)
         == Window(SingleCellFn(d, plan.(doMirror := false), resized, mean, multiScale, false, scale),
                   d.channels, plan.height, plan.width, false)
  {
    var fT := SingleCellFn(d, plan.(doMirror := true), resized, mean, multiScale, false, scale);
    var fF := SingleCellFn(d, plan.(doMirror := false), resized, mean, multiScale, false, scale);
    MirrorIsRowFlip(fT, d.channels, plan.height, plan.width);
    var a := Window(fT, d.channels, plan.height, plan.width, false);
    var b := Window(fF, d.channels, plan.height, plan.width, false);
    forall k | 0 <= k < |a|
      ensures a[k] == b[k]
    {
      var cell := CellAt(k, plan.height, plan.width, false);
      assert fT(cell.c, cell.h, cell.w) == fF(cell.c, cell.h, cell.w);
    }
  }

  /**
   * With flow channels and a mirror, each even channel holds `255 - v` and
   * each odd channel holds `v`, where v is what the same mirrored crop
   * would hold without the flow flag (no mean, unit scale).
   */
  lemma FlowInvertsEvenChannels(d: Datum, plan: Plan, resized: seq<real>, multiScale: bool, k: int)
    requires plan.doMirror && plan.height > 0 && plan.width > 0 && d.channels >= 0
    requires 0 <= k < d.channels * plan.height * plan.width
    ensures var c := CellAt(k, plan.height, plan.width, true).c;
      var flow := Expected(SingleCellFn(d, plan, resized, NoMean, multiScale, true, 1.0), k, plan.height, plan.width, true);
      var plain := Expected(SingleCellFn(d, plan, resized, NoMean, multiScale, false, 1.0), k, plan.height, plan.width, true);
      0 <= c < d.channels &&
      (c % 2 == 0 ==> flow == 255.0 - plain) && (c % 2 == 1 ==> flow == plain)
  {
    TopIndexOfCell(d.channels, k, plan.height, plan.width, true);
  }

  // ---------------------------------------------------------------------
  // Transform(const Datum&, const Datum&, Blob*, Blob*, int): crop/fill loops
  // ---------------------------------------------------------------------

  /** Flat index of (c, h, w) in a resized grid of `height x width` per channel. */
  function GridIndex(c: int, h: int, w: int, height: int, width: int): int
  {
    (c * height + h) * width + w
  }

  /**
   * Data cell (c, h, w) of the paired transform: the resized image at
   * (h + h_off, w + w_off), mean-subtracted and scaled, or 0 where the
   * window hangs outside the image.
   */
  function PairedDataCell(grid: seq<byte>, height: int, width: int, hOff: int, wOff: int,
                          mean: seq<real>, scale: real, c: int, h: int, w: int): real
  {
    if InImage(h + hOff, w + wOff, height, width) then
      var v := ByteAt(grid, GridIndex(c, h + hOff, w + wOff, height, width));
      if |mean| > 0 then (v - At(mean, c)) * scale else v * scale
    else 0.0
  }

  /** Label cell (c, h, w) of the paired transform: the label at the source, or the ignore label outside. */
  function PairedLabelCell(grid: seq<byte>, height: int, width: int, hOff: int, wOff: int,
                           ignoreLabel: int, c: int, h: int, w: int): real
  {
    if InImage(h + hOff, w + wOff, height, width) then
      ByteAt(grid, GridIndex(c, h + hOff, w + wOff, height, width))
    else ignoreLabel as real
  }

  function PairedDataFn(grid: seq<byte>, height: int, width: int, hOff: int, wOff: int,
                        mean: seq<real>, scale: real): (int, int, int) -> real
  {
    (c, h, w) => PairedDataCell(grid, height, width, hOff, wOff, mean, scale, c, h, w)
  }

  function PairedLabelFn(grid: seq<byte>, height: int, width: int, hOff: int, wOff: int,
                         ignoreLabel: int): (int, int, int) -> real
  {
    (c, h, w) => PairedLabelCell(grid, height, width, hOff, wOff, ignoreLabel, c, h, w)
  }

  /** A source position inside the image is a cell of the resized grid. */
  lemma GridIndexInGrid(channels: int, height: int, width: int, c: int, h: int, w: int)
    requires 0 <= c < channels && InImage(h, w, height, width)
    ensures 0 <= GridIndex(c, h, w, height, width) < channels * height * width
  {
    MulLe(c + 1, channels, height);
    RowInside(c * height + h, channels * height, width);
  }

  // ---------------------------------------------------------------------
  // Transform(Blob*, Blob*)
  // ---------------------------------------------------------------------

  /**
   * Cell (nc, h, w) of the tensor-to-tensor copy, where nc = n * channels + c
   * runs over items and channels together: the (already mean-subtracted)
   * input at the crop offset, inverted on even channels of a mirrored flow
   * tensor. Scaling is applied afterwards to the whole destination.
   */
  function BlobCell(input: seq<real>, channels: int, inH: int, inW: int, hOff: int, wOff: int,
                    isFlow: bool, doMirror: bool, nc: int, h: int, w: int): real
  {
    var v := At(input, (nc * inH + hOff + h) * inW + wOff + w);
    var c := if channels > 0 then nc % channels else 0;
    if doMirror && isFlow && c % 2 == 0 then 255.0 - v else v
  }

  function BlobCellFn(input: seq<real>, channels: int, inH: int, inW: int, hOff: int, wOff: int,
                      isFlow: bool, doMirror: bool): (int, int, int) -> real
  {
    (nc, h, w) => BlobCell(input, channels, inH, inW, hOff, wOff, isFlow, doMirror, nc, h, w)
  }
}
