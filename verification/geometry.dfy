/**
 * Crop geometry of the data transformer: the fixed-offset grid
 * (`fillFixOffset`), the multi-scale crop-size list (`fillCropSize`), the
 * centred test-time offset, the random offsets drawn from the generator and
 * the stride-aligned window of the paired data/label transform.
 */
module Geometry {

  import opened Arith

  /** A (row, column) crop offset. */
  datatype Offset = Offset(h: int, w: int)

  /** A (height, width) crop size. */
  datatype Size = Size(h: int, w: int)

  /** An index pair (h-index, w-index) into the list of scale ratios. */
  datatype RatioPair = RatioPair(i: int, j: int)

  function Abs(x: int): nat
  {
    if x < 0 then -x else x
  }

  /** C++ integer division, which truncates toward zero. */
  function CDiv(a: int, b: int): (q: int)
    requires b > 0
    ensures a >= 0 ==> q == a / b
  {
    if a >= 0 then a / b else -((-a) / b)
  }

  /** C++ `int(x)` on a float: truncation toward zero. */
  function Trunc(x: real): int
  {
    if x >= 0.0 then x.Floor else -((-x).Floor)
  }

  // ---------------------------------------------------------------------
  // Fixed-offset grid (fillFixOffset)
  // ---------------------------------------------------------------------

  /**
   * The candidate offsets of a fixed crop: the four corners and the centre
   * of a grid whose step is a quarter of the slack, then, with `moreCrop`,
   * the four edge midpoints and the four quarter points.
   */
  function FixOffsets(datumH: int, datumW: int, cropH: int, cropW: int, moreCrop: bool): (r: seq<Offset>)
    ensures |r| == if moreCrop then 13 else 5
    ensures cropH <= datumH && cropW <= datumW ==>
      forall k :: 0 <= k < |r| ==> 0 <= r[k].h <= datumH - cropH && 0 <= r[k].w <= datumW - cropW
    ensures r[0] == Offset(0, 0)
  {
    var hOff := CDiv(datumH - cropH, 4);
    var wOff := CDiv(datumW - cropW, 4);
    var five := [Offset(0, 0), Offset(0, 4 * wOff), Offset(4 * hOff, 0),
                 Offset(4 * hOff, 4 * wOff), Offset(2 * hOff, 2 * wOff)];
    if moreCrop then
      five + [Offset(0, 2 * wOff), Offset(4 * hOff, 2 * wOff), Offset(2 * hOff, 0), Offset(2 * hOff, 4 * wOff),
              Offset(hOff, wOff), Offset(hOff, 3 * wOff), Offset(3 * hOff, wOff), Offset(3 * hOff, 3 * wOff)]
    else
      five
  }

  /**
   * The test-phase offset: `(dim - crop) / 2`, which splits the slack so
   * that the two margins differ by at most one.
   */
  function CenterOffset(dim: int, crop: int): (off: int)
    requires crop <= dim
    ensures 0 <= off <= dim - crop
    ensures (dim - crop - off) - off == (dim - crop) % 2
  {
    CDiv(dim - crop, 2)
  }

  /**
   * Entry 4 of the fixed grid is the centre crop whenever the slack modulo
   * 4 is 0 or 1 in both directions (a 256-wide image cropped to 224, say),
   * so a fixed crop that draws index 4 agrees with the test-phase crop.
   */
  lemma FixCenterIsCenterCrop(datumH: int, datumW: int, cropH: int, cropW: int, moreCrop: bool)
    requires cropH <= datumH && cropW <= datumW
    requires (datumH - cropH) % 4 < 2 && (datumW - cropW) % 4 < 2
    ensures FixOffsets(datumH, datumW, cropH, cropW, moreCrop)[4]
         == Offset(CenterOffset(datumH, cropH), CenterOffset(datumW, cropW))
  {
    var sh, sw := datumH - cropH, datumW - cropW;
    assert sh == 4 * (sh / 4) + sh % 4;
    assert sw == 4 * (sw / 4) + sw % 4;
    assert sh / 2 == 2 * (sh / 4);
    assert sw / 2 == 2 * (sw / 4);
  }

  /** A uniformly drawn offset `raw % (dim - crop + 1)`: always in [0, dim - crop]. */
  function RandomOffset(dim: int, crop: int, raw: nat): (off: int)
    requires crop <= dim
    ensures 0 <= off <= dim - crop
  {
    raw % (dim - crop + 1)
  }

  // ---------------------------------------------------------------------
  // Multi-scale crop sizes (fillCropSize)
  // ---------------------------------------------------------------------

  /** The scale ratios used when none are configured. */
  const DefaultScaleRatios: seq<real> := [1.0, 0.875, 0.75, 0.66]

  /** The configured ratios, or the default ones when none are configured. */
  function ScaleRates(custom: seq<real>): (r: seq<real>)
    ensures |r| > 0
  {
    if |custom| > 0 then custom else DefaultScaleRatios
  }

  /**
   * A side within 3 pixels of the network input size snaps to it: the
   * result is the side or the target, never a side that is near the
   * target without being it, and a side 3 or more away is kept.
   */
  function Snap(side: int, target: int): (r: int)
    ensures r == side || r == target
    ensures r == target || Abs(r - target) >= 3
    ensures Abs(side - target) >= 3 ==> r == side
  {
    if Abs(side - target) < 3 then target else side
  }

  /** Candidate side `int(base * ratio)`, snapped to the target size. */
  function SnappedSide(base: int, ratio: real, target: int): int
  {
    Snap(Trunc(base as real * ratio), target)
  }

  /** Pairs (i, j) of row i with j < w and |i - j| <= maxDistort, in increasing j. */
  function RowPairs(i: int, maxDistort: int, w: nat): seq<RatioPair>
  {
    if w == 0 then []
    else RowPairs(i, maxDistort, w - 1) + (if Abs(i - (w - 1)) <= maxDistort then [RatioPair(i, w - 1)] else [])
  }

  /** Pairs of the first `h` rows of an n x n ratio grid that pass the distortion filter, h-major. */
  function Pairs(h: nat, n: nat, maxDistort: int): seq<RatioPair>
  {
    if h == 0 then [] else Pairs(h - 1, n, maxDistort) + RowPairs(h - 1, maxDistort, n)
  }

  /** All kept ratio-index pairs, in the order the loops of fillCropSize visit them. */
  function KeptPairs(n: nat, maxDistort: int): seq<RatioPair>
  {
    Pairs(n, n, maxDistort)
  }

  /** The crop size chosen for ratio pair `p`. */
  function SizeFor(p: RatioPair, rates: seq<real>, base: int, netH: int, netW: int): Size
    requires 0 <= p.i < |rates| && 0 <= p.j < |rates|
  {
    Size(SnappedSide(base, rates[p.i], netH), SnappedSide(base, rates[p.j], netW))
  }

  predicate PairsIn(ps: seq<RatioPair>, n: int)
  {
    forall k :: 0 <= k < |ps| ==> 0 <= ps[k].i < n && 0 <= ps[k].j < n
  }

  function SizesFor(ps: seq<RatioPair>, rates: seq<real>, base: int, netH: int, netW: int): (r: seq<Size>)
    requires PairsIn(ps, |rates|)
    ensures |r| == |ps|
  {
    seq(|ps|, k requires 0 <= k < |ps| => SizeFor(ps[k], rates, base, netH, netW))
  }

  /**
   * The multi-scale crop-size list: for every kept ratio pair (i, j), in
   * h-major order, the side `int(min(H, W) * rate[i])` snapped to the net
   * height and the side `int(min(H, W) * rate[j])` snapped to the net width.
   */
  function CropSizes(inH: int, inW: int, netH: int, netW: int, maxDistort: int, custom: seq<real>): (r: seq<Size>)
  {
    var rates := ScaleRates(custom);
    KeptPairsSound(|rates|, maxDistort);
    SizesFor(KeptPairs(|rates|, maxDistort), rates, if inH < inW then inH else inW, netH, netW)
  }

  lemma {:induction false} RowPairsSound(i: int, maxDistort: int, w: nat)
    ensures forall k :: 0 <= k < |RowPairs(i, maxDistort, w)| ==>
      RowPairs(i, maxDistort, w)[k].i == i && 0 <= RowPairs(i, maxDistort, w)[k].j < w &&
      Abs(i - RowPairs(i, maxDistort, w)[k].j) <= maxDistort
  {
    if w > 0 {
      RowPairsSound(i, maxDistort, w - 1);
    }
  }

  lemma {:induction false} PairsSound(h: nat, n: nat, maxDistort: int)
    ensures forall k :: 0 <= k < |Pairs(h, n, maxDistort)| ==>
      0 <= Pairs(h, n, maxDistort)[k].i < h && 0 <= Pairs(h, n, maxDistort)[k].j < n &&
      Abs(Pairs(h, n, maxDistort)[k].i - Pairs(h, n, maxDistort)[k].j) <= maxDistort
  {
    if h > 0 {
      PairsSound(h - 1, n, maxDistort);
      RowPairsSound(h - 1, maxDistort, n);
    }
  }

  /** Every kept pair indexes the ratio list and passes the distortion filter. */
  lemma KeptPairsSound(n: nat, maxDistort: int)
    ensures PairsIn(KeptPairs(n, maxDistort), n)
    ensures forall k :: 0 <= k < |KeptPairs(n, maxDistort)| ==>
      Abs(KeptPairs(n, maxDistort)[k].i - KeptPairs(n, maxDistort)[k].j) <= maxDistort
  {
    PairsSound(n, n, maxDistort);
  }

  lemma {:induction false} RowPairsComplete(i: int, maxDistort: int, w: nat, j: int)
    requires 0 <= j < w && Abs(i - j) <= maxDistort
    ensures RatioPair(i, j) in RowPairs(i, maxDistort, w)
  {
    if j < w - 1 {
      RowPairsComplete(i, maxDistort, w - 1, j);
    }
  }

  lemma {:induction false} PairsComplete(h: nat, n: nat, maxDistort: int, i: int, j: int)
    requires 0 <= i < h && 0 <= j < n && Abs(i - j) <= maxDistort
    ensures RatioPair(i, j) in Pairs(h, n, maxDistort)
  {
    var left, right := Pairs(h - 1, n, maxDistort), RowPairs(h - 1, maxDistort, n);
    assert Pairs(h, n, maxDistort) == left + right;
    if i < h - 1 {
      PairsComplete(h - 1, n, maxDistort, i, j);
      InLeft(RatioPair(i, j), left, right);
    } else {
      RowPairsComplete(i, maxDistort, n, j);
      InRight(RatioPair(i, j), left, right);
    }
  }

  lemma InLeft(p: RatioPair, left: seq<RatioPair>, right: seq<RatioPair>)
    requires p in left
    ensures p in left + right
  {
    var k :| 0 <= k < |left| && left[k] == p;
    assert (left + right)[k] == p;
  }

  lemma InRight(p: RatioPair, left: seq<RatioPair>, right: seq<RatioPair>)
    requires p in right
    ensures p in left + right
  {
    var k :| 0 <= k < |right| && right[k] == p;
    assert (left + right)[|left| + k] == p;
  }

  /** Every pair of the grid that passes the distortion filter is kept. */
  lemma KeptPairsComplete(n: nat, maxDistort: int, i: int, j: int)
    requires 0 <= i < n && 0 <= j < n && Abs(i - j) <= maxDistort
    ensures RatioPair(i, j) in KeptPairs(n, maxDistort)
  {
    PairsComplete(n, n, maxDistort, i, j);
  }

  /** Lexicographic (h-major, w-minor) order on ratio pairs. */
  predicate Before(p: RatioPair, q: RatioPair)
  {
    p.i < q.i || (p.i == q.i && p.j < q.j)
  }

  predicate StrictlyOrdered(ps: seq<RatioPair>)
  {
    forall a, b :: 0 <= a < b < |ps| ==> Before(ps[a], ps[b])
  }

  lemma {:induction false} RowPairsOrdered(i: int, maxDistort: int, w: nat)
    ensures StrictlyOrdered(RowPairs(i, maxDistort, w))
  {
    if w > 0 {
      RowPairsOrdered(i, maxDistort, w - 1);
      RowPairsSound(i, maxDistort, w - 1);
    }
  }

  lemma {:induction false} PairsOrdered(h: nat, n: nat, maxDistort: int)
    ensures StrictlyOrdered(Pairs(h, n, maxDistort))
  {
    if h > 0 {
      PairsOrdered(h - 1, n, maxDistort);
      PairsSound(h - 1, n, maxDistort);
      RowPairsOrdered(h - 1, maxDistort, n);
      RowPairsSound(h - 1, maxDistort, n);
      var left, right := Pairs(h - 1, n, maxDistort), RowPairs(h - 1, maxDistort, n);
      var all := left + right;
      forall a, b | 0 <= a < b < |all|
        ensures Before(all[a], all[b])
      {
        if b >= |left| && a < |left| {
          assert all[b] == right[b - |left|];
        } else if a >= |left| {
          assert all[a] == right[a - |left|] && all[b] == right[b - |left|];
        }
      }
    }
  }

  /**
   * The kept pairs come out in h-major, w-minor order without repetition;
   * with soundness and completeness this makes the list exactly the sorted
   * enumeration of the index pairs passing the filter, so its length is
   * the number of such pairs.
   */
  lemma KeptPairsOrdered(n: nat, maxDistort: int)
    ensures StrictlyOrdered(KeptPairs(n, maxDistort))
  {
    PairsOrdered(n, n, maxDistort);
  }

  lemma {:induction false} RowPairsDiagonal(i: int, w: nat)
    requires 0 <= i
    ensures RowPairs(i, 0, w) == if i < w then [RatioPair(i, i)] else []
  {
    if w > 0 {
      RowPairsDiagonal(i, w - 1);
    }
  }

  lemma {:induction false} PairsDiagonal(h: nat, n: nat)
    requires h <= n
    ensures Pairs(h, n, 0) == seq(h, i requires 0 <= i < h => RatioPair(i, i))
  {
    if h > 0 {
      PairsDiagonal(h - 1, n);
      RowPairsDiagonal(h - 1, n);
      var prev := seq(h - 1, i requires 0 <= i < h - 1 => RatioPair(i, i));
      var all := seq(h, i requires 0 <= i < h => RatioPair(i, i));
      assert all == prev + [RatioPair(h - 1, h - 1)];
    } else {
      assert seq(h, i requires 0 <= i < h => RatioPair(i, i)) == [];
    }
  }

  /**
   * With `max_distort == 0` exactly one pair is kept per ratio, the
   * diagonal one; when the net input is square each of these crops is
   * square.
   */
  lemma NoDistortionIsDiagonal(inH: int, inW: int, net: int, custom: seq<real>)
    ensures |CropSizes(inH, inW, net, net, 0, custom)| == |ScaleRates(custom)|
    ensures forall k :: 0 <= k < |CropSizes(inH, inW, net, net, 0, custom)| ==>
      CropSizes(inH, inW, net, net, 0, custom)[k].h == CropSizes(inH, inW, net, net, 0, custom)[k].w
  {
    var n := |ScaleRates(custom)|;
    PairsDiagonal(n, n);
  }

  /** `int(base * ratio)` stays in [0, base] when the ratio is in [0, 1]. */
  lemma SideBounded(base: int, ratio: real)
    requires base >= 0 && 0.0 <= ratio <= 1.0
    ensures 0 <= Trunc(base as real * ratio) <= base
  {
    assert base as real * ratio <= base as real * 1.0;
  }

  /**
   * No crop size exceeds the shorter image side, given ratios in [0, 1]
   * and a net input that fits the image (both checked or configured by the
   * caller of fillCropSize).
   */
  lemma CropSizesFit(inH: int, inW: int, netH: int, netW: int, maxDistort: int, custom: seq<real>)
    requires 0 <= netH <= inH && 0 <= netW <= inH && netH <= inW && netW <= inW
    requires forall k :: 0 <= k < |custom| ==> 0.0 <= custom[k] <= 1.0
    ensures forall s :: s in CropSizes(inH, inW, netH, netW, maxDistort, custom) ==>
      0 <= s.h <= inH && s.h <= inW && 0 <= s.w <= inH && s.w <= inW
  {
    var rates := ScaleRates(custom);
    var base := if inH < inW then inH else inW;
    var ps := KeptPairs(|rates|, maxDistort);
    KeptPairsSound(|rates|, maxDistort);
    var r := SizesFor(ps, rates, base, netH, netW);
    assert r == CropSizes(inH, inW, netH, netW, maxDistort, custom);
    forall s | s in r
      ensures 0 <= s.h <= inH && s.h <= inW && 0 <= s.w <= inH && s.w <= inW
    {
      var k :| 0 <= k < |r| && r[k] == s;
      assert s == SizeFor(ps[k], rates, base, netH, netW);
      RateFits(rates, ps[k].i);
      RateFits(rates, ps[k].j);
      SnappedSideBounded(base, rates[ps[k].i], netH);
      SnappedSideBounded(base, rates[ps[k].j], netW);
    }
  }

  lemma SnappedSideBounded(base: int, ratio: real, target: int)
    requires 0 <= target <= base && 0.0 <= ratio <= 1.0
    ensures 0 <= SnappedSide(base, ratio, target) <= base
  {
    SideBounded(base, ratio);
  }

  lemma RateFits(rates: seq<real>, i: int)
    requires 0 <= i < |rates|
    requires rates == DefaultScaleRatios || forall k :: 0 <= k < |rates| ==> 0.0 <= rates[k] <= 1.0
    ensures 0.0 <= rates[i] <= 1.0
  {
  }

  /** Sizes of the pairs of two consecutive lists are the sizes of each, one after the other. */
  lemma SizesForAppend(a: seq<RatioPair>, b: seq<RatioPair>, rates: seq<real>, base: int, netH: int, netW: int)
    requires PairsIn(a, |rates|) && PairsIn(b, |rates|)
    ensures PairsIn(a + b, |rates|)
    ensures SizesFor(a + b, rates, base, netH, netW) == SizesFor(a, rates, base, netH, netW) + SizesFor(b, rates, base, netH, netW)
  {
    assert forall k :: |a| <= k < |a + b| ==> (a + b)[k] == b[k - |a|];
  }

  /**
   * fillCropSize: two nested loops over the ratio indices that append the
   * snapped size of every pair passing the distortion filter.
   */
  method FillCropSize(inH: int, inW: int, netH: int, netW: int, maxDistort: int, custom: seq<real>)
    returns (sizes: seq<Size>)
    ensures sizes == CropSizes(inH, inW, netH, netW, maxDistort, custom)
  {
    var rates := ScaleRates(custom);
    var n := |rates|;
    var base := if inH < inW then inH else inW;
    sizes := [];
    var h := 0;
    while h < n
      invariant 0 <= h <= n
      invariant PairsIn(Pairs(h, n, maxDistort), n)
      invariant sizes == SizesFor(Pairs(h, n, maxDistort), rates, base, netH, netW)
    {
      var row := RowSizes(h, rates, base, netH, netW, maxDistort);
      RowPairsSound(h, maxDistort, n);
      SizesForAppend(Pairs(h, n, maxDistort), RowPairs(h, maxDistort, n), rates, base, netH, netW);
      sizes := sizes + row;
      h := h + 1;
    }
    KeptPairsSound(n, maxDistort);
  }

  /** The inner loop of fillCropSize: the sizes of row h of the ratio grid, in increasing w. */
  method RowSizes(h: int, rates: seq<real>, base: int, netH: int, netW: int, maxDistort: int)
    returns (row: seq<Size>)
    requires 0 <= h < |rates|
    ensures PairsIn(RowPairs(h, maxDistort, |rates|), |rates|)
    ensures row == SizesFor(RowPairs(h, maxDistort, |rates|), rates, base, netH, netW)
  {
    var n := |rates|;
    var cropH := SnappedSide(base, rates[h], netH);
    row := [];
    var w := 0;
    RowPairsSound(h, maxDistort, n);
    while w < n
      invariant 0 <= w <= n
      invariant PairsIn(RowPairs(h, maxDistort, w), n)
      invariant row == SizesFor(RowPairs(h, maxDistort, w), rates, base, netH, netW)
    {
      var cropW := SnappedSide(base, rates[w], netW);
      RowPairsSound(h, maxDistort, w + 1);
      if Abs(h - w) <= maxDistort {
        SizesForAppend(RowPairs(h, maxDistort, w), [RatioPair(h, w)], rates, base, netH, netW);
        assert SizesFor([RatioPair(h, w)], rates, base, netH, netW) == [Size(cropH, cropW)];
        row := row + [Size(cropH, cropW)];
      } else {
        assert RowPairs(h, maxDistort, w + 1) == RowPairs(h, maxDistort, w);
      }
      w := w + 1;
    }
  }

  // ---------------------------------------------------------------------
  // Paired data/label window
  // ---------------------------------------------------------------------

  /** `((height - 1) / stride + 1) * stride`: the side rounded up to a multiple of the stride. */
  function StrideAligned(side: int, stride: int): int
    requires stride > 0
  {
    (CDiv(side - 1, stride) + 1) * stride
  }

  /** The rounded-up side is the smallest multiple of the stride that holds the side. */
  lemma StrideAlignedBounds(side: int, stride: int)
    requires side >= 1 && stride >= 1
    ensures StrideAligned(side, stride) % stride == 0
    ensures side <= StrideAligned(side, stride) < side + stride
  {
    var q := (side - 1) / stride;
    var r := (side - 1) % stride;
    assert side - 1 == q * stride + r;
    assert StrideAligned(side, stride) == (q + 1) * stride;
    assert (q + 1) * stride == q * stride + stride;
    DivModUnique(q + 1, 0, stride);
  }

  /**
   * The paired transform's offset from one generator output: negative (the
   * window hangs over the image) when the crop is larger than the image.
   */
  function PairedOffset(side: int, crop: int, raw: nat): (off: int)
    ensures side < crop ==> -(crop - side) <= off <= 0
    ensures side >= crop ==> 0 <= off <= side - crop
    ensures side == crop ==> off == 0
  {
    if side < crop then -(raw % (crop - side + 1)) else raw % (side - crop + 1)
  }

  /** Whether a source cell lies inside the resized image. */
  predicate InImage(h: int, w: int, height: int, width: int)
  {
    0 <= h < height && 0 <= w < width
  }

  /**
   * When the window is the image itself (scale 1, stride 1, no crop
   * override) the offsets are zero and no cell of the window falls outside
   * the image.
   */
  lemma UnitWindowCoversImage(height: int, width: int, rawH: nat, rawW: nat)
    requires height >= 1 && width >= 1
    ensures StrideAligned(height, 1) == height && StrideAligned(width, 1) == width
    ensures PairedOffset(height, height, rawH) == 0 && PairedOffset(width, width, rawW) == 0
  {
    DivModUnique(height - 1, 0, 1);
    DivModUnique(width - 1, 0, 1);
    DivModUnique(rawH, 0, 1);
    DivModUnique(rawW, 0, 1);
  }
}
