/**
 * Flat channel-major, row-major buffers (the layout every Caffe blob and
 * Datum uses) and the crop/mirror write loop that all the `Transform`
 * overloads share: for each channel c, row h and column w of the
 * destination window, the cell value goes to
 * `(c * height + h) * width + w'`, where `w' = width - 1 - w` when the
 * sample is mirrored and `w' = w` otherwise.
 */
module Layout {

  import opened Arith

  /** Destination column of source column `w` in a row of `width` cells. */
  function DestCol(w: int, width: int, mirror: bool): int
  {
    if mirror then width - 1 - w else w
  }

  /** Flat destination index of cell (c, h, w). */
  function TopIndex(c: int, h: int, w: int, height: int, width: int, mirror: bool): int
  {
    (c * height + h) * width + DestCol(w, width, mirror)
  }

  /** A cell of a channel-major buffer. */
  datatype Cell = Cell(c: int, h: int, w: int)

  /** The cell whose value lands at flat index `k`: the inverse of TopIndex. */
  function CellAt(k: int, height: int, width: int, mirror: bool): Cell
    requires height > 0 && width > 0
  {
    var row := k / width;
    Cell(row / height, row % height, DestCol(k % width, width, mirror))
  }

  /** Value written at flat index `k` by a fill with cell function `f`. */
  function Expected(f: (int, int, int) -> real, k: int, height: int, width: int, mirror: bool): real
    requires height > 0 && width > 0
  {
    var cell := CellAt(k, height, width, mirror);
    f(cell.c, cell.h, cell.w)
  }

  /** Row `row` of a buffer with `rows` rows of `width` cells ends inside it. */
  lemma RowInside(row: int, rows: int, width: int)
    requires 0 <= row < rows && width >= 0
    ensures 0 <= row * width && row * width + width <= rows * width
  {
    assert row * width + width == (row + 1) * width;
  }

  /**
   * Every cell of a C x height x width window is written exactly once:
   * TopIndex sends the cells into [0, C*height*width), CellAt undoes it,
   * and every index of that range is the TopIndex of its cell.
   */
  lemma {:induction false} TopIndexBijection(C: int, height: int, width: int, mirror: bool)
    requires C >= 0 && height > 0 && width > 0
    ensures forall c, h, w :: 0 <= c < C && 0 <= h < height && 0 <= w < width ==>
      0 <= TopIndex(c, h, w, height, width, mirror) < C * height * width &&
      CellAt(TopIndex(c, h, w, height, width, mirror), height, width, mirror) == Cell(c, h, w)
    ensures forall k :: 0 <= k < C * height * width ==>
      var cell := CellAt(k, height, width, mirror);
      0 <= cell.c < C && 0 <= cell.h < height && 0 <= cell.w < width &&
      TopIndex(cell.c, cell.h, cell.w, height, width, mirror) == k
  {
    forall c, h, w | 0 <= c < C && 0 <= h < height && 0 <= w < width
      ensures 0 <= TopIndex(c, h, w, height, width, mirror) < C * height * width
      ensures CellAt(TopIndex(c, h, w, height, width, mirror), height, width, mirror) == Cell(c, h, w)
    {
      CellOfTopIndex(C, c, h, w, height, width, mirror);
    }
    forall k | 0 <= k < C * height * width
      ensures var cell := CellAt(k, height, width, mirror);
        0 <= cell.c < C && 0 <= cell.h < height && 0 <= cell.w < width &&
        TopIndex(cell.c, cell.h, cell.w, height, width, mirror) == k
    {
      TopIndexOfCell(C, k, height, width, mirror);
    }
  }

  lemma CellOfTopIndex(C: int, c: int, h: int, w: int, height: int, width: int, mirror: bool)
    requires height > 0 && width > 0
    requires 0 <= c < C && 0 <= h < height && 0 <= w < width
    ensures 0 <= TopIndex(c, h, w, height, width, mirror) < C * height * width
    ensures CellAt(TopIndex(c, h, w, height, width, mirror), height, width, mirror) == Cell(c, h, w)
  {
    var row := c * height + h;
    var col := DestCol(w, width, mirror);
    RowInside(c, C, height);
    RowInside(row, C * height, width);
    DivModUnique(row, col, width);
    DivModUnique(c, h, height);
  }

  lemma TopIndexOfCell(C: int, k: int, height: int, width: int, mirror: bool)
    requires height > 0 && width > 0 && 0 <= k < C * height * width
    ensures var cell := CellAt(k, height, width, mirror);
      0 <= cell.c < C && 0 <= cell.h < height && 0 <= cell.w < width &&
      TopIndex(cell.c, cell.h, cell.w, height, width, mirror) == k
  {
    var row, col := k / width, k % width;
    var c, h := row / height, row % height;
    assert k == row * width + col;
    assert row == c * height + h;
    assert 0 <= row by {
      if row < 0 {
        MulLe(row, -1, width);
      }
    }
    assert c < C by {
      if c >= C {
        MulLe(C, c, height);
        MulLe(C * height, row, width);
      }
    }
    DestColInvolution(col, width, mirror);
    assert TopIndex(c, h, DestCol(col, width, mirror), height, width, mirror) == row * width + col;
  }

  /** Every index of row (c, h) expects the value of the cell it mirrors to. */
  lemma RowExpected(f: (int, int, int) -> real, c: int, h: int, height: int, width: int, mirror: bool, k: int)
    requires height > 0 && width > 0 && 0 <= h < height
    requires (c * height + h) * width <= k < (c * height + h) * width + width
    ensures Expected(f, k, height, width, mirror) == f(c, h, DestCol(k - (c * height + h) * width, width, mirror))
  {
    DivModUnique(c * height + h, k - (c * height + h) * width, width);
    DivModUnique(c, h, height);
  }

  /**
   * The loop nest of every crop transform: for c < C, h < height, w < width,
   * `out[base + TopIndex(c, h, w)] := f(c, h, w)`. Afterwards every index of
   * the window holds the value of the one cell that maps to it, and nothing
   * outside the window has changed.
   */
  method FillCrop(out: array<real>, base: nat, C: nat, height: nat, width: nat, mirror: bool,
                  f: (int, int, int) -> real)
    requires base + C * height * width <= out.Length
    modifies out
    ensures height > 0 && width > 0 ==> forall k :: 0 <= k < C * height * width ==>
      out[base + k] == Expected(f, k, height, width, mirror)
    ensures forall j :: 0 <= j < out.Length && !(base <= j < base + C * height * width) ==>
      out[j] == old(out[j])
  {
    if height == 0 || width == 0 {
      return;
    }
    var plane := height * width;
    assert C * height * width == C * plane;
    var c := 0;
    while c < C
      invariant 0 <= c <= C
      invariant forall k :: 0 <= k < c * plane ==> out[base + k] == Expected(f, k, height, width, mirror)
      invariant forall j :: 0 <= j < out.Length && !(base <= j < base + C * plane) ==> out[j] == old(out[j])
    {
      RowInside(c, C, plane);
      MulSucc(c, plane);
      FillChannel(out, base, C, height, width, mirror, f, c, c * plane);
      c := c + 1;
    }
  }

  /**
   * The loop over the rows of channel c, whose plane of `height * width`
   * cells starts at flat index `first`: every cell of the plane gets its
   * expected value.
   */
  method FillChannel(out: array<real>, base: nat, C: nat, height: nat, width: nat, mirror: bool,
                     f: (int, int, int) -> real, c: nat, first: nat)
    requires height > 0 && width > 0
    requires first == c * (height * width) && base + first + height * width <= out.Length
    modifies out
    ensures forall k :: first <= k < first + height * width ==> out[base + k] == Expected(f, k, height, width, mirror)
    ensures forall j :: 0 <= j < out.Length && !(base + first <= j < base + first + height * width) ==>
      out[j] == old(out[j])
  {
    var h := 0;
    var next := first;
    while h < height
      invariant 0 <= h <= height && next == first + h * width
      invariant forall k :: first <= k < next ==> out[base + k] == Expected(f, k, height, width, mirror)
      invariant forall j :: 0 <= j < out.Length && !(base + first <= j < base + first + height * width) ==>
        out[j] == old(out[j])
    {
      ChannelRow(c, h, height, width);
      RowInside(h, height, width);
      FillExpectedRow(out, base, next, C, height, width, mirror, f, c, h);
      next := next + width;
      h := h + 1;
    }
  }

  /** Row h of channel c starts `h * width` cells into the channel's plane and ends inside it. */
  lemma ChannelRow(c: int, h: int, height: int, width: int)
    ensures (c * height + h) * width == c * (height * width) + h * width
    ensures (h + 1) * width == h * width + width
  {
    assert (c * height + h) * width == c * height * width + h * width;
  }

  /** Row (c, h) of the window, stated in terms of the flat indices it covers. */
  method FillExpectedRow(out: array<real>, base: nat, start: nat, C: nat, height: nat, width: nat, mirror: bool,
                         f: (int, int, int) -> real, c: int, h: int)
    requires height > 0 && width > 0 && 0 <= h < height
    requires start == (c * height + h) * width && base + start + width <= out.Length
    modifies out
    ensures forall k :: start <= k < start + width ==> out[base + k] == Expected(f, k, height, width, mirror)
    ensures forall j :: 0 <= j < out.Length && !(base + start <= j < base + start + width) ==> out[j] == old(out[j])
  {
    FillRow(out, base + start, width, mirror, f, c, h);
    forall k | start <= k < start + width
      ensures out[base + k] == Expected(f, k, height, width, mirror)
    {
      RowExpected(f, c, h, height, width, mirror, k);
    }
  }

  /** The innermost loop: one destination row, written left to right or mirrored. */
  method FillRow(out: array<real>, rowStart: nat, width: nat, mirror: bool,
                 f: (int, int, int) -> real, c: int, h: int)
    requires rowStart + width <= out.Length
    modifies out
    ensures forall x :: 0 <= x < width ==> out[rowStart + DestCol(x, width, mirror)] == f(c, h, x)
    ensures forall j :: 0 <= j < out.Length && !(rowStart <= j < rowStart + width) ==> out[j] == old(out[j])
  {
    var w := 0;
    while w < width
      invariant 0 <= w <= width
      invariant forall x :: 0 <= x < w ==> out[rowStart + DestCol(x, width, mirror)] == f(c, h, x)
      invariant forall j :: 0 <= j < out.Length && !(rowStart <= j < rowStart + width) ==> out[j] == old(out[j])
    {
      out[rowStart + DestCol(w, width, mirror)] := f(c, h, w);
      w := w + 1;
    }
  }

  /** Position of the mirror image of flat index `k` within its row. */
  function FlipIndex(k: int, n: int, width: int): (j: int)
    requires width > 0 && n % width == 0 && 0 <= k < n
    ensures 0 <= j < n && j / width == k / width && j % width == width - 1 - k % width
  {
    FlipIndexInside(k, n, width);
    (k / width) * width + (width - 1 - k % width)
  }

  lemma FlipIndexInside(k: int, n: int, width: int)
    requires width > 0 && n % width == 0 && 0 <= k < n
    ensures var j := (k / width) * width + (width - 1 - k % width);
      0 <= j < n && j / width == k / width && j % width == width - 1 - k % width
  {
    var row, col := k / width, k % width;
    assert k == row * width + col;
    assert n == (n / width) * width;
    if row >= n / width {
      MulLe(n / width, row, width);
    }
    RowInside(row, n / width, width);
    DivModUnique(row, width - 1 - col, width);
  }

  /** Reverses every row of `width` cells of a flat buffer. */
  function FlipRows(s: seq<real>, width: int): (r: seq<real>)
    requires width > 0 && |s| % width == 0
    ensures |r| == |s|
  {
    seq(|s|, k requires 0 <= k < |s| => s[FlipIndex(k, |s|, width)])
  }

  /** The whole window a fill with cell function `f` produces. */
  function Window(f: (int, int, int) -> real, C: nat, height: nat, width: nat, mirror: bool): (r: seq<real>)
    requires height > 0 && width > 0
    ensures |r| == C * height * width
    ensures forall k :: 0 <= k < |r| ==> r[k] == Expected(f, k, height, width, mirror)
  {
    seq(C * height * width, k requires 0 <= k < C * height * width => Expected(f, k, height, width, mirror))
  }

  /**
   * Mirroring only reverses rows: flipping each row of the mirrored window
   * gives back the unmirrored one, when the cell values themselves do not
   * depend on the mirror decision.
   */
  lemma {:induction false} MirrorIsRowFlip(f: (int, int, int) -> real, C: nat, height: nat, width: nat)
    requires height > 0 && width > 0
    ensures (C * height * width) % width == 0
    ensures FlipRows(Window(f, C, height, width, true), width) == Window(f, C, height, width, false)
  {
    var n := C * height * width;
    assert n == (C * height) * width;
    DivModUnique(C * height, 0, width);
    var m := Window(f, C, height, width, true);
    var u := Window(f, C, height, width, false);
    forall k | 0 <= k < n
      ensures FlipRows(m, width)[k] == u[k]
    {
      var j := FlipIndex(k, n, width);
      assert m[j] == Expected(f, j, height, width, true);
    }
  }

  /** Mirroring twice is the identity on column positions. */
  lemma DestColInvolution(w: int, width: int, mirror: bool)
    ensures DestCol(DestCol(w, width, mirror), width, mirror) == w
  {
  }
}
