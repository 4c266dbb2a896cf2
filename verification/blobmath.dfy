/**
 * The element-wise arithmetic the tensor-to-tensor transform applies in
 * place: the mean map subtracted from every item of the input, the mean
 * values subtracted from every channel plane of the input, and the final
 * scaling of the destination.
 */
module BlobMath {

  import opened Arith
  import opened Means

  /**
   * The input with the mean map subtracted from every item: items are
   * `|m|` cells long, so cell i loses `m[i % |m|]`. An empty map (items of
   * no cells) changes nothing.
   */
  function MinusMeanMap(s: seq<real>, m: seq<real>): seq<real>
  {
    seq(|s|, i requires 0 <= i < |s| => if |m| > 0 then s[i] - m[i % |m|] else s[i])
  }

  /**
   * The input with mean values subtracted: one value is subtracted from
   * every cell; otherwise cell i, which lies in channel plane `i / plane`
   * (planes are numbered `n * C + c`), loses the value of channel c.
   */
  function MinusChannelMeans(s: seq<real>, mv: seq<real>, C: int, plane: int): seq<real>
    requires |mv| > 0 && (|mv| == 1 || |mv| == C)
  {
    seq(|s|, i requires 0 <= i < |s| =>
      if |mv| == 1 then s[i] - mv[0]
      else if plane > 0 then s[i] - mv[(i / plane) % C]
      else s[i])
  }

  /** `caffe_scal`: every cell multiplied by k. */
  function Scaled(s: seq<real>, k: real): seq<real>
  {
    seq(|s|, i requires 0 <= i < |s| => s[i] * k)
  }

  /** Scaling commutes with dropping a prefix. */
  lemma ScaledSuffix(s: seq<real>, k: real, n: int)
    requires 0 <= n <= |s|
    ensures Scaled(s, k)[n..] == Scaled(s[n..], k)
  {
    assert forall i :: 0 <= i < |s| - n ==> Scaled(s, k)[n..][i] == Scaled(s[n..], k)[i];
  }

  /**
   * The cells of `now` from n on are those of `before` multiplied by k
   * (`before` and `now` being the same buffer before and after a scaling).
   */
  predicate ScaledFrom(now: seq<real>, before: seq<real>, n: int, k: real)
  {
    |now| == |before| && (0 <= n <= |now| ==> now[n..] == Scaled(before[n..], k))
  }

  /** A cell function whose every value is multiplied by k. */
  function ScaleFn(f: (int, int, int) -> real, k: real): (int, int, int) -> real
  {
    (c, h, w) => f(c, h, w) * k
  }

  /** The flat index of cell (n, c, h, w) of a `C x H x W`-item tensor, as `Blob::offset(n, c, h, w)`. */
  function CellIndex(n: int, c: int, h: int, w: int, C: int, H: int, W: int): int
  {
    ((n * C + c) * H + h) * W + w
  }

  /** The cell (n, c, h, w) lies in channel plane `n * C + c` at position `h * W + w` of the plane. */
  lemma CellIndexSplit(n: int, c: int, h: int, w: int, C: int, H: int, W: int)
    requires 0 <= h < H && 0 <= w < W
    ensures CellIndex(n, c, h, w, C, H, W) == (n * C + c) * (H * W) + (h * W + w)
    ensures 0 <= h * W + w < H * W
  {
    var b := n * C + c;
    assert (b * H + h) * W == b * (H * W) + h * W;
    MulLe(h + 1, H, W);
  }

  /**
   * Per item, the mean-map subtraction takes cell k of the map from cell k
   * of the item.
   */
  lemma {:induction false} MeanMapPerCell(s: seq<real>, m: seq<real>, n: int, k: int)
    requires 0 <= k < |m| && 0 <= n && n * |m| + k < |s|
    ensures MinusMeanMap(s, m)[n * |m| + k] == s[n * |m| + k] - m[k]
  {
    DivModUnique(n, k, |m|);
  }

  /**
   * Cell (n, c, h, w) loses the mean value of its own channel c (or the
   * single value when only one is given).
   */
  lemma {:induction false} ChannelMeansPerCell(s: seq<real>, mv: seq<real>, n: int, c: int, h: int, w: int,
                                               C: int, H: int, W: int, i: int)
    requires |mv| > 0 && (|mv| == 1 || |mv| == C)
    requires 0 <= n && 0 <= c < C && 0 <= h < H && 0 <= w < W
    requires i == CellIndex(n, c, h, w, C, H, W) && 0 <= i < |s|
    ensures MinusChannelMeans(s, mv, C, H * W)[i] == s[i] - (if |mv| == 1 then mv[0] else mv[c])
  {
    CellIndexSplit(n, c, h, w, C, H, W);
    DivModUnique(n * C + c, h * W + w, H * W);
    DivModUnique(n, c, C);
    assert (i / (H * W)) % C == c;
  }

  /**
   * With one configured value, subtracting it everywhere is the same as
   * subtracting the list grown to one value per channel channel by channel.
   */
  lemma {:induction false} SingleMeanIsPerChannel(s: seq<real>, v: real, C: nat, plane: int)
    requires C > 1 && plane > 0
    ensures |Replicated([v], C)| == C
    ensures MinusChannelMeans(s, [v], C, plane) == MinusChannelMeans(s, Replicated([v], C), C, plane)
  {
    var r := Replicated([v], C);
    assert |r| == C;
    forall i | 0 <= i < |s|
      ensures MinusChannelMeans(s, [v], C, plane)[i] == MinusChannelMeans(s, r, C, plane)[i]
    {
      var c := (i / plane) % C;
      assert r[c] == [v][c % 1];
    }
  }

  /** `caffe_add_scalar(len, v, a + from)`: adds v to the `len` cells starting at `from`. */
  method AddScalar(a: array<real>, from: nat, len: nat, v: real)
    requires from + len <= a.Length
    modifies a
    ensures forall i :: 0 <= i < a.Length ==>
      a[i] == (if from <= i < from + len then old(a[i]) + v else old(a[i]))
  {
    var j := 0;
    while j < len
      invariant 0 <= j <= len
      invariant forall i :: 0 <= i < a.Length ==>
        a[i] == (if from <= i < from + j then old(a[i]) + v else old(a[i]))
    {
      a[from + j] := a[from + j] + v;
      j := j + 1;
    }
  }

  /** Subtracts the mean map from every item of the input, in place. */
  method SubtractMeanMap(a: array<real>, m: seq<real>)
    modifies a
    ensures a[..] == MinusMeanMap(old(a[..]), m)
  {
    if |m| == 0 {
      return;
    }
    var i := 0;
    while i < a.Length
      invariant 0 <= i <= a.Length
      invariant forall j :: 0 <= j < a.Length ==> a[j] == (if j < i then old(a[j]) - m[j % |m|] else old(a[j]))
    {
      a[i] := a[i] - m[i % |m|];
      i := i + 1;
    }
  }

  /**
   * Subtracts mean values in place: a single value from all cells at once,
   * otherwise value c from channel plane c of each of the `planes / C`
   * items, one plane of `plane` cells after the other.
   */
  method SubtractChannelMeans(a: array<real>, mv: seq<real>, C: nat, plane: nat)
    requires |mv| > 0 && (|mv| == 1 || |mv| == C)
    requires plane > 0 && a.Length % plane == 0
    modifies a
    ensures a[..] == MinusChannelMeans(old(a[..]), mv, C, plane)
  {
    if |mv| == 1 {
      AddScalar(a, 0, a.Length, -mv[0]);
      return;
    }
    var planes := a.Length / plane;
    assert planes * plane == a.Length;
    var b := 0;
    while b < planes
      invariant 0 <= b <= planes
      invariant forall i :: 0 <= i < a.Length ==>
        a[i] == (if i < b * plane then old(a[i]) - mv[(i / plane) % C] else old(a[i]))
    {
      MulLe(b + 1, planes, plane);
      AddScalar(a, b * plane, plane, -mv[b % C]);
      forall i | b * plane <= i < (b + 1) * plane
        ensures i / plane == b
      {
        DivModUnique(b, i - b * plane, plane);
      }
      b := b + 1;
    }
  }

  /** `caffe_scal` over the whole buffer, in place. */
  method ScaleInPlace(a: array<real>, k: real)
    modifies a
    ensures a[..] == Scaled(old(a[..]), k)
  {
    var i := 0;
    while i < a.Length
      invariant 0 <= i <= a.Length
      invariant forall j :: 0 <= j < a.Length ==> a[j] == (if j < i then old(a[j]) * k else old(a[j]))
    {
      a[i] := a[i] * k;
      i := i + 1;
    }
    assert forall j :: 0 <= j < a.Length ==> a[..][j] == Scaled(old(a[..]), k)[j];
  }
}
