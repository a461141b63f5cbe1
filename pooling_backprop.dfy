/** The backward passes of max pooling and average pooling
    (llab/gpu/convolutional.c, lines 136-172 and 222-236).  Both sweep the
    windows in row-major order and OVERWRITE every cell of each window of
    input_error, so where windows overlap the last window wins. */
module PoolingBackProp {
  import opened Tensor
  import opened Pooling

  // ----- the argmax of max_pooling_back_prop (lines 144-155) -----

  /** The C variables max, index1 and index2 together. */
  datatype Best = Best(value: real, row: int, col: int)

  /** The argmax scan over cells k2 = 0 .. n-1 of window row k1, starting
      from b0: a strictly greater cell replaces the running maximum and
      records its position. */
  function ArgMaxRow(input: seq<real>, g: PoolShape, i: int, j: int, k1: int, n: nat, b0: Best): Best
  {
    if n == 0 then b0
    else
      var b := ArgMaxRow(input, g, i, j, k1, n - 1, b0);
      var v := At(input, WIdx(g, i, j, k1, n - 1));
      if v > b.value then Best(v, k1, n - 1) else b
  }

  /** The argmax scan over window rows k1 = 0 .. n-1 of window (i, j). */
  function ArgMaxWindow(input: seq<real>, g: PoolShape, i: int, j: int, n: nat, b0: Best): Best
  {
    if n == 0 then b0
    else ArgMaxRow(input, g, i, j, n - 1, g.poolCols, ArgMaxWindow(input, g, i, j, n - 1, b0))
  }

  /** The argmax scan of a row keeps the value of the forward pass's running
      maximum, and the position it records is b0's or a scanned cell holding
      that value. */
  lemma {:induction false} ArgMaxRowAgrees(input: seq<real>, g: PoolShape, i: int, j: int, k1: int, n: nat, b0: Best)
    ensures ArgMaxRow(input, g, i, j, k1, n, b0).value == MaxRow(input, g, i, j, k1, n, b0.value)
    ensures var r := ArgMaxRow(input, g, i, j, k1, n, b0);
      r == b0 || (r.row == k1 && 0 <= r.col < n && r.value == At(input, WIdx(g, i, j, k1, r.col)))
  {
    if n > 0 {
      ArgMaxRowAgrees(input, g, i, j, k1, n - 1, b0);
    }
  }

  /** The argmax scan of a window keeps the value of the forward pass's
      running maximum, and the position it records is b0's or a cell of the
      window holding that value. */
  lemma {:induction false} ArgMaxWindowAgrees(input: seq<real>, g: PoolShape, i: int, j: int, n: nat, b0: Best)
    ensures ArgMaxWindow(input, g, i, j, n, b0).value == MaxWindow(input, g, i, j, n, b0.value)
    ensures var r := ArgMaxWindow(input, g, i, j, n, b0);
      r == b0 || (0 <= r.row < n && 0 <= r.col < g.poolCols && r.value == At(input, WIdx(g, i, j, r.row, r.col)))
  {
    if n > 0 {
      var prev := ArgMaxWindow(input, g, i, j, n - 1, b0);
      ArgMaxWindowAgrees(input, g, i, j, n - 1, b0);
      ArgMaxRowAgrees(input, g, i, j, n - 1, g.poolCols, prev);
    }
  }

  /** A position is recorded only for a cell strictly above the start and
      above every earlier cell of the row: ties keep the first position. */
  lemma {:induction false} ArgMaxRowFirst(input: seq<real>, g: PoolShape, i: int, j: int, k1: int, n: nat, b0: Best)
    ensures var r := ArgMaxRow(input, g, i, j, k1, n, b0);
      r != b0 ==> r.value > b0.value && forall k2 :: 0 <= k2 < r.col ==> At(input, WIdx(g, i, j, k1, k2)) < r.value
  {
    if n > 0 {
      var b := ArgMaxRow(input, g, i, j, k1, n - 1, b0);
      ArgMaxRowFirst(input, g, i, j, k1, n - 1, b0);
      ArgMaxRowAgrees(input, g, i, j, k1, n - 1, b0);
      MaxRowBounds(input, g, i, j, k1, n - 1, b0.value);
    }
  }

  /** The position max_pooling_back_prop picks in a window is the first in
      row-major order that holds the strict maximum: every cell before it
      is strictly smaller, and it beats the starting sentinel. */
  lemma {:induction false} ArgMaxWindowFirst(input: seq<real>, g: PoolShape, i: int, j: int, n: nat, b0: Best)
    ensures var r := ArgMaxWindow(input, g, i, j, n, b0);
      r != b0 ==>
        (r.value > b0.value &&
         forall k1, k2 :: ((0 <= k1 < r.row && 0 <= k2 < g.poolCols) || (k1 == r.row && 0 <= k2 < r.col))
           ==> At(input, WIdx(g, i, j, k1, k2)) < r.value)
  {
    if n > 0 {
      var prev := ArgMaxWindow(input, g, i, j, n - 1, b0);
      var r := ArgMaxRow(input, g, i, j, n - 1, g.poolCols, prev);
      ArgMaxWindowFirst(input, g, i, j, n - 1, b0);
      ArgMaxWindowAgrees(input, g, i, j, n - 1, b0);
      MaxWindowBounds(input, g, i, j, n - 1, b0.value);
      if r != prev {
        ArgMaxRowFirst(input, g, i, j, n - 1, g.poolCols, prev);
        ArgMaxRowAgrees(input, g, i, j, n - 1, g.poolCols, prev);
      }
    }
  }

  // ----- overwriting one window of input_error -----

  /** What one window writes into its cells: the max pass writes v into the
      winning cell (row, col) and 0 everywhere else (lines 157-168), the
      average pass writes the same share v everywhere (line 231). */
  datatype Fill = Single(row: int, col: int, v: real) | Uniform(v: real)

  function FillValue(f: Fill, k1: int, k2: int): real
  {
    match f
    case Single(row, col, v) => if row == k1 && col == k2 then v else 0.0
    case Uniform(v) => v
  }

  /** input_error after the writes to cells k2 = 0 .. n-1 of window row k1. */
  function FillRow(xe: seq<real>, g: PoolShape, i: int, j: int, k1: int, n: nat, f: Fill): (r: seq<real>)
    ensures |r| == |xe|
  {
    if n == 0 then xe
    else
      var prev := FillRow(xe, g, i, j, k1, n - 1, f);
      var idx := WIdx(g, i, j, k1, n - 1);
      if 0 <= idx < |prev| then prev[idx := FillValue(f, k1, n - 1)] else prev
  }

  /** input_error after the writes to window rows k1 = 0 .. n-1. */
  function FillWindow(xe: seq<real>, g: PoolShape, i: int, j: int, n: nat, f: Fill): (r: seq<real>)
    ensures |r| == |xe|
  {
    if n == 0 then xe else FillRow(FillWindow(xe, g, i, j, n - 1, f), g, i, j, n - 1, g.poolCols, f)
  }

  /** Every cell of the row written so far holds its fill value. */
  lemma {:induction false} FillRowHit(xe: seq<real>, g: PoolShape, i: int, j: int, k1: int, n: nat, f: Fill, k2: int)
    requires g.Valid() && |xe| == g.InputLen() && n <= g.poolCols
    requires g.InWindow(i, j, k1, k2) && k2 < n
    ensures 0 <= WIdx(g, i, j, k1, k2) < |xe|
    ensures FillRow(xe, g, i, j, k1, n, f)[WIdx(g, i, j, k1, k2)] == FillValue(f, k1, k2)
  {
    WindowCell(g, i, j, k1, k2);
    WindowCell(g, i, j, k1, n - 1);
    if k2 < n - 1 {
      FillRowHit(xe, g, i, j, k1, n - 1, f, k2);
      if WIdx(g, i, j, k1, n - 1) == WIdx(g, i, j, k1, k2) {
        WindowInjective(g, i, j, k1, n - 1, k1, k2);
      }
    }
  }

  /** A cell the row does not address keeps its value. */
  lemma {:induction false} FillRowMiss(xe: seq<real>, g: PoolShape, i: int, j: int, k1: int, n: nat, f: Fill, idx: int)
    requires 0 <= idx < |xe|
    requires forall k2 :: 0 <= k2 < n ==> WIdx(g, i, j, k1, k2) != idx
    ensures FillRow(xe, g, i, j, k1, n, f)[idx] == xe[idx]
  {
    if n > 0 {
      FillRowMiss(xe, g, i, j, k1, n - 1, f, idx);
      assert WIdx(g, i, j, k1, n - 1) != idx;
    }
  }

  /** Every cell of the window rows written so far holds its fill value. */
  lemma {:induction false} FillWindowHit(xe: seq<real>, g: PoolShape, i: int, j: int, n: nat, f: Fill, k1: int, k2: int)
    requires g.Valid() && |xe| == g.InputLen() && n <= g.poolRows
    requires g.InWindow(i, j, k1, k2) && k1 < n
    ensures 0 <= WIdx(g, i, j, k1, k2) < |xe|
    ensures FillWindow(xe, g, i, j, n, f)[WIdx(g, i, j, k1, k2)] == FillValue(f, k1, k2)
  {
    var prev := FillWindow(xe, g, i, j, n - 1, f);
    if k1 == n - 1 {
      FillRowHit(prev, g, i, j, k1, g.poolCols, f, k2);
    } else {
      FillWindowHit(xe, g, i, j, n - 1, f, k1, k2);
      var last := n - 1;
      forall l2 | 0 <= l2 < g.poolCols
        ensures WIdx(g, i, j, last, l2) != WIdx(g, i, j, k1, k2)
      {
        if WIdx(g, i, j, last, l2) == WIdx(g, i, j, k1, k2) {
          WindowInjective(g, i, j, last, l2, k1, k2);
        }
      }
      FillRowMiss(prev, g, i, j, last, g.poolCols, f, WIdx(g, i, j, k1, k2));
    }
  }

  /** A cell the window does not address keeps its value. */
  lemma {:induction false} FillWindowMiss(xe: seq<real>, g: PoolShape, i: int, j: int, n: nat, f: Fill, idx: int)
    requires 0 <= idx < |xe|
    requires forall k1, k2 :: 0 <= k1 < n && 0 <= k2 < g.poolCols ==> WIdx(g, i, j, k1, k2) != idx
    ensures FillWindow(xe, g, i, j, n, f)[idx] == xe[idx]
  {
    if n > 0 {
      FillWindowMiss(xe, g, i, j, n - 1, f, idx);
      FillRowMiss(FillWindow(xe, g, i, j, n - 1, f), g, i, j, n - 1, g.poolCols, f, idx);
    }
  }

  // ----- the window sweep shared by both backward passes -----

  datatype PoolKind = MaxPool | AveragePool

  /** input_error together with the C variables index1 and index2, which
      max_pooling_back_prop carries from window to window.  They start out
      uninitialised; the model takes their initial values as parameters. */
  datatype PoolState = PoolState(err: seq<real>, index1: int, index2: int)

  /** The argmax of window (i, j) as lines 144-155 compute it: the scan
      starts from max = Sentinel(i, j) and from the indices left by the
      previous window, which survive when no cell beats the sentinel. */
  function Winner(g: PoolShape, input: seq<real>, st: PoolState, i: int, j: int): Best
  {
    ArgMaxWindow(input, g, i, j, g.poolRows, Best(Sentinel(i, j), st.index1, st.index2))
  }

  /** The share of line 231, (1/(sub_pool_i*sub_pool_j)) * e.  The loop of
      line 231 runs only for a window of at least one cell, so the value
      written is never the empty window's. */
  function AvgShare(g: PoolShape, e: real): real
  {
    if g.poolRows * g.poolCols == 0 then 0.0 else (1.0 / (g.poolRows * g.poolCols) as real) * e
  }

  /** What window (i, j) writes into input_error. */
  function WindowFill(g: PoolShape, kind: PoolKind, input: seq<real>, oe: seq<real>, st: PoolState,
                      i: int, j: int): Fill
    requires g.Valid()
  {
    match kind
    case MaxPool =>
      var b := Winner(g, input, st, i, j);
      Single(b.row, b.col, At(oe, OutIdx(g, i, j)))
    case AveragePool => Uniform(AvgShare(g, At(oe, OutIdx(g, i, j))))
  }

  /** The state after window (i, j). */
  function WindowStep(g: PoolShape, kind: PoolKind, input: seq<real>, oe: seq<real>, st: PoolState,
                      i: int, j: int): (r: PoolState)
    requires g.Valid()
    ensures |r.err| == |st.err|
  {
    var xe := FillWindow(st.err, g, i, j, g.poolRows, WindowFill(g, kind, input, oe, st, i, j));
    match kind
    case MaxPool =>
      var b := Winner(g, input, st, i, j);
      PoolState(xe, b.row, b.col)
    case AveragePool => PoolState(xe, st.index1, st.index2)
  }

  /** The state after windows j = 0 .. n-1 of window row i. */
  function LineBack(g: PoolShape, kind: PoolKind, input: seq<real>, oe: seq<real>, st: PoolState,
                    i: int, n: nat): (r: PoolState)
    requires g.Valid()
    ensures |r.err| == |st.err|
  {
    if n == 0 then st else WindowStep(g, kind, input, oe, LineBack(g, kind, input, oe, st, i, n - 1), i, n - 1)
  }

  /** The window step writes the window's fill into input_error. */
  lemma StepErr(g: PoolShape, kind: PoolKind, input: seq<real>, oe: seq<real>, st: PoolState, i: int, j: int)
    requires g.Valid()
    ensures WindowStep(g, kind, input, oe, st, i, j).err
         == FillWindow(st.err, g, i, j, g.poolRows, WindowFill(g, kind, input, oe, st, i, j))
  {
  }

  /** The state after window rows i = 0 .. n-1. */
  function GridBack(g: PoolShape, kind: PoolKind, input: seq<real>, oe: seq<real>, st: PoolState,
                    n: nat): (r: PoolState)
    requires g.Valid()
    ensures |r.err| == |st.err|
  {
    if n == 0 then st else LineBack(g, kind, input, oe, GridBack(g, kind, input, oe, st, n - 1), n - 1, g.Across())
  }

  /** The state in which window (i, j) starts. */
  function Before(g: PoolShape, kind: PoolKind, input: seq<real>, oe: seq<real>, st0: PoolState,
                  i: nat, j: nat): PoolState
    requires g.Valid()
  {
    LineBack(g, kind, input, oe, GridBack(g, kind, input, oe, st0, i), i, j)
  }

  /** The result of a whole backward pass. */
  function PoolBack(g: PoolShape, kind: PoolKind, input: seq<real>, oe: seq<real>, st0: PoolState): (r: PoolState)
    requires g.Valid()
    ensures |r.err| == |st0.err|
  {
    GridBack(g, kind, input, oe, st0, g.Down())
  }

  // ----- what the sweeps do to input_error -----

  /** An input cell that no window covers (a border row or column the
      stride skips) keeps the value input_error had before the call. */
  lemma {:induction false} LineMiss(g: PoolShape, kind: PoolKind, input: seq<real>, oe: seq<real>, st: PoolState,
                                    i: int, n: nat, idx: int)
    requires g.Valid() && 0 <= idx < |st.err|
    requires forall j, k1, k2 :: 0 <= j < n && 0 <= k1 < g.poolRows && 0 <= k2 < g.poolCols ==> WIdx(g, i, j, k1, k2) != idx
    ensures LineBack(g, kind, input, oe, st, i, n).err[idx] == st.err[idx]
  {
    if n > 0 {
      var prev := LineBack(g, kind, input, oe, st, i, n - 1);
      LineMiss(g, kind, input, oe, st, i, n - 1, idx);
      FillWindowMiss(prev.err, g, i, n - 1, g.poolRows, WindowFill(g, kind, input, oe, prev, i, n - 1), idx);
    }
  }

  lemma {:induction false} GridMiss(g: PoolShape, kind: PoolKind, input: seq<real>, oe: seq<real>, st: PoolState,
                                    n: nat, idx: int)
    requires g.Valid() && 0 <= idx < |st.err|
    requires forall i, j, k1, k2 :: 0 <= i < n && 0 <= j < g.Across() && 0 <= k1 < g.poolRows && 0 <= k2 < g.poolCols
               ==> WIdx(g, i, j, k1, k2) != idx
    ensures GridBack(g, kind, input, oe, st, n).err[idx] == st.err[idx]
  {
    if n > 0 {
      GridMiss(g, kind, input, oe, st, n - 1, idx);
      LineMiss(g, kind, input, oe, GridBack(g, kind, input, oe, st, n - 1), n - 1, g.Across(), idx);
    }
  }

  /** Windows do not overlap when the stride is at least the window's
      extent in both directions. */
  predicate Disjoint(g: PoolShape)
  {
    g.stride >= g.poolRows && g.stride >= g.poolCols
  }

  /** Without overlap, an input cell lies in one window only. */
  lemma OneWindow(g: PoolShape, i: int, j: int, k1: int, k2: int, i2: int, j2: int, l1: int, l2: int)
    requires g.Valid() && Disjoint(g) && g.InWindow(i, j, k1, k2) && g.InWindow(i2, j2, l1, l2)
    requires WIdx(g, i, j, k1, k2) == WIdx(g, i2, j2, l1, l2)
    ensures i == i2 && j == j2
  {
    WindowCell(g, i, j, k1, k2);
    WindowCell(g, i2, j2, l1, l2);
    var s := g.stride;
    RowCol(i * s + k1, s, i);
    RowCol(i2 * s + l1, s, i2);
    RowCol(j * s + k2, s, j);
    RowCol(j2 * s + l2, s, j2);
  }

  /** Without overlap, window (i, j) leaves the cells of every other
      window alone. */
  lemma StepSkips(g: PoolShape, kind: PoolKind, input: seq<real>, oe: seq<real>, st: PoolState,
                  i: int, j: int, i0: int, j0: int, k1: int, k2: int, idx: int)
    requires g.Valid() && Disjoint(g) && 0 <= idx < |st.err|
    requires 0 <= i < g.Down() && 0 <= j < g.Across() && (i != i0 || j != j0)
    requires g.InWindow(i0, j0, k1, k2) && idx == WIdx(g, i0, j0, k1, k2)
    ensures WindowStep(g, kind, input, oe, st, i, j).err[idx] == st.err[idx]
  {
    forall l1, l2 | 0 <= l1 < g.poolRows && 0 <= l2 < g.poolCols
      ensures WIdx(g, i, j, l1, l2) != idx
    {
      if WIdx(g, i, j, l1, l2) == idx {
        OneWindow(g, i, j, l1, l2, i0, j0, k1, k2);
      }
    }
    var f := WindowFill(g, kind, input, oe, st, i, j);
    FillWindowMiss(st.err, g, i, j, g.poolRows, f, idx);
    StepErr(g, kind, input, oe, st, i, j);
  }

  /** Windows j >= m of row i leave a cell idx of window (i, j0), j0 < m, alone. */
  lemma {:induction false} LineTail(g: PoolShape, kind: PoolKind, input: seq<real>, oe: seq<real>, st: PoolState,
                                    i: int, m: nat, n: nat, j0: int, k1: int, k2: int, idx: int)
    requires g.Valid() && Disjoint(g) && 0 <= idx < |st.err|
    requires g.InWindow(i, j0, k1, k2) && idx == WIdx(g, i, j0, k1, k2) && j0 < m <= n <= g.Across()
    ensures LineBack(g, kind, input, oe, st, i, n).err[idx] == LineBack(g, kind, input, oe, st, i, m).err[idx]
  {
    if n > m {
      var prev := LineBack(g, kind, input, oe, st, i, n - 1);
      calc {
        LineBack(g, kind, input, oe, st, i, n).err[idx];
        WindowStep(g, kind, input, oe, prev, i, n - 1).err[idx];
        { StepSkips(g, kind, input, oe, prev, i, n - 1, i, j0, k1, k2, idx); }
        prev.err[idx];
        { LineTail(g, kind, input, oe, st, i, m, n - 1, j0, k1, k2, idx); }
        LineBack(g, kind, input, oe, st, i, m).err[idx];
      }
    }
  }

  /** A whole window row other than i0 leaves a cell idx of window (i0, j0) alone. */
  lemma {:induction false} LineSkips(g: PoolShape, kind: PoolKind, input: seq<real>, oe: seq<real>, st: PoolState,
                                     i: int, n: nat, i0: int, j0: int, k1: int, k2: int, idx: int)
    requires g.Valid() && Disjoint(g) && 0 <= idx < |st.err|
    requires 0 <= i < g.Down() && n <= g.Across() && i != i0
    requires g.InWindow(i0, j0, k1, k2) && idx == WIdx(g, i0, j0, k1, k2)
    ensures LineBack(g, kind, input, oe, st, i, n).err[idx] == st.err[idx]
  {
    if n > 0 {
      var prev := LineBack(g, kind, input, oe, st, i, n - 1);
      calc {
        LineBack(g, kind, input, oe, st, i, n).err[idx];
        WindowStep(g, kind, input, oe, prev, i, n - 1).err[idx];
        { StepSkips(g, kind, input, oe, prev, i, n - 1, i0, j0, k1, k2, idx); }
        prev.err[idx];
        { LineSkips(g, kind, input, oe, st, i, n - 1, i0, j0, k1, k2, idx); }
        st.err[idx];
      }
    }
  }

  /** Window rows i >= m leave a cell idx of a window in row i0 < m alone. */
  lemma {:induction false} GridTail(g: PoolShape, kind: PoolKind, input: seq<real>, oe: seq<real>, st: PoolState,
                                    m: nat, n: nat, i0: int, j0: int, k1: int, k2: int, idx: int)
    requires g.Valid() && Disjoint(g) && 0 <= idx < |st.err|
    requires g.InWindow(i0, j0, k1, k2) && idx == WIdx(g, i0, j0, k1, k2) && i0 < m <= n <= g.Down()
    ensures GridBack(g, kind, input, oe, st, n).err[idx] == GridBack(g, kind, input, oe, st, m).err[idx]
  {
    if n > m {
      var prev := GridBack(g, kind, input, oe, st, n - 1);
      calc {
        GridBack(g, kind, input, oe, st, n).err[idx];
        LineBack(g, kind, input, oe, prev, n - 1, g.Across()).err[idx];
        { LineSkips(g, kind, input, oe, prev, n - 1, g.Across(), i0, j0, k1, k2, idx); }
        prev.err[idx];
        { GridTail(g, kind, input, oe, st, m, n - 1, i0, j0, k1, k2, idx); }
        GridBack(g, kind, input, oe, st, m).err[idx];
      }
    }
  }

  /** Without overlap, every cell of window (i, j) ends up holding exactly
      what window (i, j) wrote into it. */
  lemma WindowKeeps(g: PoolShape, kind: PoolKind, input: seq<real>, oe: seq<real>, st0: PoolState,
                    i: nat, j: nat, k1: int, k2: int)
    requires g.Valid() && Disjoint(g) && |st0.err| == g.InputLen() && g.InWindow(i, j, k1, k2)
    ensures 0 <= WIdx(g, i, j, k1, k2) < g.InputLen()
    ensures PoolBack(g, kind, input, oe, st0).err[WIdx(g, i, j, k1, k2)]
         == FillValue(WindowFill(g, kind, input, oe, Before(g, kind, input, oe, st0, i, j), i, j), k1, k2)
  {
    var row := GridBack(g, kind, input, oe, st0, i);
    var pre := Before(g, kind, input, oe, st0, i, j);
    WindowCell(g, i, j, k1, k2);
    var idx := WIdx(g, i, j, k1, k2);
    GridTail(g, kind, input, oe, st0, i + 1, g.Down(), i, j, k1, k2, idx);
    LineTail(g, kind, input, oe, row, i, j + 1, g.Across(), j, k1, k2, idx);
    FillWindowHit(pre.err, g, i, j, g.poolRows, WindowFill(g, kind, input, oe, pre, i, j), k1, k2);
  }

  /** The cell that max_pooling_back_prop routes the error of window (i, j)
      to holds the value max_pooling_feed_forward wrote for that window,
      provided some cell beats the sentinel; otherwise the indices of the
      previous window are reused. */
  lemma WinnerIsForwardMax(g: PoolShape, input: seq<real>, out: seq<real>, st: PoolState, i: int, j: int)
    requires g.Valid() && |input| == g.InputLen() && |out| == g.OutputLen()
    requires 0 <= i < g.Down() && 0 <= j < g.Across()
    ensures 0 <= OutIdx(g, i, j) < |out|
    ensures Winner(g, input, st, i, j).value == MaxPoolForward(g, input, out)[OutIdx(g, i, j)]
    ensures MaxPoolForward(g, input, out)[OutIdx(g, i, j)] > Sentinel(i, j) ==>
      var b := Winner(g, input, st, i, j);
      g.InWindow(i, j, b.row, b.col) && 0 <= WIdx(g, i, j, b.row, b.col) < |input|
      && At(input, WIdx(g, i, j, b.row, b.col)) == b.value
  {
    MaxPoolForwardAt(g, input, out, i, j);
    var b := Winner(g, input, st, i, j);
    ArgMaxWindowAgrees(input, g, i, j, g.poolRows, Best(Sentinel(i, j), st.index1, st.index2));
    if b.value > Sentinel(i, j) {
      WindowCell(g, i, j, b.row, b.col);
    }
  }

  /** Without overlap, max_pooling_back_prop leaves in window (i, j) the
      window's output error at the winning cell and 0 at every other cell. */
  lemma MaxBackRoutes(g: PoolShape, input: seq<real>, oe: seq<real>, st0: PoolState, i: nat, j: nat, k1: int, k2: int)
    requires g.Valid() && Disjoint(g) && |st0.err| == g.InputLen() && g.InWindow(i, j, k1, k2)
    ensures 0 <= WIdx(g, i, j, k1, k2) < g.InputLen()
    ensures var b := Winner(g, input, Before(g, MaxPool, input, oe, st0, i, j), i, j);
      PoolBack(g, MaxPool, input, oe, st0).err[WIdx(g, i, j, k1, k2)]
        == (if b.row == k1 && b.col == k2 then At(oe, OutIdx(g, i, j)) else 0.0)
  {
    WindowKeeps(g, MaxPool, input, oe, st0, i, j, k1, k2);
  }

  /** Without overlap, avarage_pooling_back_prop leaves the share
      e / (sub_pool_i*sub_pool_j) of window (i, j)'s output error e in each
      of its cells. */
  lemma AverageBackSpreads(g: PoolShape, input: seq<real>, oe: seq<real>, st0: PoolState, i: nat, j: nat)
    requires g.Valid() && Disjoint(g) && |st0.err| == g.InputLen() && i < g.Down() && j < g.Across()
    ensures forall k1, k2 :: g.InWindow(i, j, k1, k2) ==>
      At(PoolBack(g, AveragePool, input, oe, st0).err, WIdx(g, i, j, k1, k2)) == AvgShare(g, At(oe, OutIdx(g, i, j)))
  {
    forall k1, k2 | g.InWindow(i, j, k1, k2)
      ensures At(PoolBack(g, AveragePool, input, oe, st0).err, WIdx(g, i, j, k1, k2)) == AvgShare(g, At(oe, OutIdx(g, i, j)))
    {
      WindowKeeps(g, AveragePool, input, oe, st0, i, j, k1, k2);
    }
  }

  /** Without overlap, the shares avarage_pooling_back_prop leaves in
      window (i, j) add up to the window's output error again. */
  lemma AverageBackConserves(g: PoolShape, input: seq<real>, oe: seq<real>, st0: PoolState, i: nat, j: nat)
    requires g.Valid() && Disjoint(g) && |st0.err| == g.InputLen()
    requires g.poolRows >= 1 && g.poolCols >= 1 && i < g.Down() && j < g.Across()
    ensures SumWindow(PoolBack(g, AveragePool, input, oe, st0).err, g, i, j, g.poolRows, 0.0) == At(oe, OutIdx(g, i, j))
  {
    AverageBackSpreads(g, input, oe, st0, i, j);
    SharesAddUp(PoolBack(g, AveragePool, input, oe, st0).err, g, i, j, At(oe, OutIdx(g, i, j)));
  }

  /** A window whose cells all hold the share of e sums to e. */
  lemma SharesAddUp(xe: seq<real>, g: PoolShape, i: int, j: int, e: real)
    requires g.Valid() && g.poolRows >= 1 && g.poolCols >= 1 && 0 <= i < g.Down() && 0 <= j < g.Across()
    requires forall k1, k2 :: g.InWindow(i, j, k1, k2) ==> At(xe, WIdx(g, i, j, k1, k2)) == AvgShare(g, e)
    ensures SumWindow(xe, g, i, j, g.poolRows, 0.0) == e
  {
    ConstantWindowSum(xe, g, i, j, AvgShare(g, e));
    AvgShareTotal(g, e);
  }

  /** A window whose cells all hold c sums to its size times c. */
  lemma ConstantWindowSum(xe: seq<real>, g: PoolShape, i: int, j: int, c: real)
    requires g.Valid()
    requires forall k1, k2 :: g.InWindow(i, j, k1, k2) ==> At(xe, WIdx(g, i, j, k1, k2)) == c
    requires 0 <= i < g.Down() && 0 <= j < g.Across()
    ensures SumWindow(xe, g, i, j, g.poolRows, 0.0) == WindowSize(g) * c
  {
    SumWindowBounds(xe, g, i, j, g.poolRows, c, c);
    WindowRepeat(g, c);
  }

  /** The shares of a window add up to the error they were cut from. */
  lemma AvgShareTotal(g: PoolShape, e: real)
    requires g.poolRows >= 1 && g.poolCols >= 1
    ensures WindowSize(g) * AvgShare(g, e) == e
  {
    MulMono(1, g.poolRows, g.poolCols);
    ShareTimesSize(WindowSize(g), e);
  }

  /** n * ((1/n) * e) == e for a positive n. */
  lemma ShareTimesSize(n: real, e: real)
    requires n > 0.0
    ensures n * ((1.0 / n) * e) == e
  {
    assert n * (1.0 / n) == 1.0;
    assert n * ((1.0 / n) * e) == (n * (1.0 / n)) * e;
  }

  // ----- max_pooling_back_prop, as written (lines 136-172) -----

  /** The innermost argmax loop of lines 145-153: row k1 of window (i, j). */
  method ArgMaxOfRow(input: array<real>, g: PoolShape, i: int, j: int, k1: int,
                     max0: real, index1_0: int, index2_0: int)
    returns (max: real, index1: int, index2: int)
    requires g.Valid() && input.Length == g.InputLen()
    requires 0 <= i < g.Down() && 0 <= j < g.Across() && 0 <= k1 < g.poolRows
    ensures Best(max, index1, index2) == ArgMaxRow(input[..], g, i, j, k1, g.poolCols, Best(max0, index1_0, index2_0))
  {
    max, index1, index2 := max0, index1_0, index2_0;
    var k2 := 0;
    while k2 < g.poolCols
      invariant 0 <= k2 <= g.poolCols
      invariant Best(max, index1, index2) == ArgMaxRow(input[..], g, i, j, k1, k2, Best(max0, index1_0, index2_0))
    {
      WindowCell(g, i, j, k1, k2);
      if input[g.inCols * (i * g.stride + k1) + j * g.stride + k2] > max {
        max := input[g.inCols * (i * g.stride + k1) + j * g.stride + k2];
        index1 := k1;
        index2 := k2;
      }
      k2 := k2 + 1;
    }
  }

  /** The argmax loops of lines 144-155 over window (i, j). */
  method ArgMaxOfWindow(input: array<real>, g: PoolShape, i: int, j: int,
                        max0: real, index1_0: int, index2_0: int)
    returns (max: real, index1: int, index2: int)
    requires g.Valid() && input.Length == g.InputLen()
    requires 0 <= i < g.Down() && 0 <= j < g.Across()
    ensures Best(max, index1, index2) == ArgMaxWindow(input[..], g, i, j, g.poolRows, Best(max0, index1_0, index2_0))
  {
    max, index1, index2 := max0, index1_0, index2_0;
    var k1 := 0;
    while k1 < g.poolRows
      invariant 0 <= k1 <= g.poolRows
      invariant Best(max, index1, index2) == ArgMaxWindow(input[..], g, i, j, k1, Best(max0, index1_0, index2_0))
    {
      max, index1, index2 := ArgMaxOfRow(input, g, i, j, k1, max, index1, index2);
      k1 := k1 + 1;
    }
  }

  /** The innermost overwrite loop of lines 158-166: row k1 of window
      (i, j) gets the window's output error at (index1, index2) and 0
      elsewhere. */
  method MaxFillRow(inputError: array<real>, outputError: array<real>, g: PoolShape, i: int, j: int, k1: int,
                    index1: int, index2: int)
    requires g.Valid() && inputError.Length == g.InputLen() && outputError.Length == g.OutputLen()
    requires inputError != outputError
    requires 0 <= i < g.Down() && 0 <= j < g.Across() && 0 <= k1 < g.poolRows
    modifies inputError
    ensures inputError[..] == FillRow(old(inputError[..]), g, i, j, k1, g.poolCols,
                                      Single(index1, index2, At(outputError[..], OutIdx(g, i, j))))
  {
    ghost var f := Single(index1, index2, At(outputError[..], OutIdx(g, i, j)));
    OutCell(g, i, j);
    var k2 := 0;
    while k2 < g.poolCols
      invariant 0 <= k2 <= g.poolCols
      invariant inputError[..] == FillRow(old(inputError[..]), g, i, j, k1, k2, f)
    {
      WindowCell(g, i, j, k1, k2);
      if index1 == k1 && index2 == k2 {
        inputError[g.inCols * (i * g.stride + k1) + j * g.stride + k2] := outputError[(g.padding + i) * g.OutCols() + g.padding + j];
      } else {
        inputError[g.inCols * (i * g.stride + k1) + j * g.stride + k2] := 0.0;
      }
      k2 := k2 + 1;
    }
  }

  /** The overwrite loops of lines 157-168 over window (i, j). */
  method MaxFillWindow(inputError: array<real>, outputError: array<real>, g: PoolShape, i: int, j: int,
                       index1: int, index2: int)
    requires g.Valid() && inputError.Length == g.InputLen() && outputError.Length == g.OutputLen()
    requires inputError != outputError
    requires 0 <= i < g.Down() && 0 <= j < g.Across()
    modifies inputError
    ensures inputError[..] == FillWindow(old(inputError[..]), g, i, j, g.poolRows,
                                         Single(index1, index2, At(outputError[..], OutIdx(g, i, j))))
  {
    var k1 := 0;
    while k1 < g.poolRows
      invariant 0 <= k1 <= g.poolRows
      invariant inputError[..] == FillWindow(old(inputError[..]), g, i, j, k1,
                                             Single(index1, index2, At(outputError[..], OutIdx(g, i, j))))
    {
      MaxFillRow(inputError, outputError, g, i, j, k1, index1, index2);
      k1 := k1 + 1;
    }
  }

  /** One window step of the max pass, unfolded. */
  lemma MaxStep(g: PoolShape, input: seq<real>, oe: seq<real>, st: PoolState, i: int, j: int)
    requires g.Valid()
    ensures var b := Winner(g, input, st, i, j);
      WindowStep(g, MaxPool, input, oe, st, i, j)
        == PoolState(FillWindow(st.err, g, i, j, g.poolRows, Single(b.row, b.col, At(oe, OutIdx(g, i, j)))), b.row, b.col)
  {
  }

  /** One pass of the loop of lines 142-170: the windows of row i, with
      max, index1 and index2 carried in and out. */
  method MaxBackPropLine(input: array<real>, outputError: array<real>, inputError: array<real>, g: PoolShape,
                         i: int, max0: real, index1_0: int, index2_0: int)
    returns (max: real, index1: int, index2: int)
    requires g.Valid() && input.Length == g.InputLen() && outputError.Length == g.OutputLen()
    requires inputError.Length == g.InputLen()
    requires inputError != input && inputError != outputError
    requires 0 <= i < g.Down() && max0 == Sentinel(i, 0)
    modifies inputError
    ensures max == -99999.0
    ensures PoolState(inputError[..], index1, index2)
         == LineBack(g, MaxPool, input[..], outputError[..], PoolState(old(inputError[..]), index1_0, index2_0), i, g.Across())
  {
    ghost var st0 := PoolState(inputError[..], index1_0, index2_0);
    max, index1, index2 := max0, index1_0, index2_0;
    var j := 0;
    while j < g.Across()
      invariant 0 <= j <= g.Across()
      invariant max == Sentinel(i, j)
      invariant PoolState(inputError[..], index1, index2) == LineBack(g, MaxPool, input[..], outputError[..], st0, i, j)
    {
      ghost var st := PoolState(inputError[..], index1, index2);
      max, index1, index2 := ArgMaxOfWindow(input, g, i, j, max, index1, index2);
      MaxFillWindow(inputError, outputError, g, i, j, index1, index2);
      max := -99999.0;
      MaxStep(g, input[..], outputError[..], st, i, j);
      j := j + 1;
    }
  }

  /** max_pooling_back_prop (lines 136-172): every window overwrites its
      cells of input_error, the argmax cell with the window's output error
      and the others with 0; index1 and index2 enter with the values
      index1_0 and index2_0 the uninitialised C variables happen to hold. */
  method MaxPoolingBackProp(input: array<real>, outputError: array<real>, g: PoolShape, inputError: array<real>,
                            index1_0: int, index2_0: int)
    requires g.Valid() && input.Length == g.InputLen() && outputError.Length == g.OutputLen()
    requires inputError.Length == g.InputLen()
    requires inputError != input && inputError != outputError
    modifies inputError
    ensures inputError[..]
         == PoolBack(g, MaxPool, input[..], outputError[..], PoolState(old(inputError[..]), index1_0, index2_0)).err
  {
    ghost var st0 := PoolState(inputError[..], index1_0, index2_0);
    var max := -9999.0;
    var index1, index2 := index1_0, index2_0;
    var i := 0;
    while i < g.Down()
      invariant 0 <= i <= g.Down()
      invariant max == (if i == 0 then -9999.0 else -99999.0)
      invariant PoolState(inputError[..], index1, index2) == GridBack(g, MaxPool, input[..], outputError[..], st0, i)
    {
      max, index1, index2 := MaxBackPropLine(input, outputError, inputError, g, i, max, index1, index2);
      i := i + 1;
    }
  }

  // ----- avarage_pooling_back_prop, as written (lines 222-236) -----

  /** The innermost loop of lines 230-232: row k1 of window (i, j) gets the
      share of the window's output error. */
  method AvgFillRow(inputError: array<real>, outputError: array<real>, g: PoolShape, i: int, j: int, k1: int)
    requires g.Valid() && inputError.Length == g.InputLen() && outputError.Length == g.OutputLen()
    requires inputError != outputError
    requires 0 <= i < g.Down() && 0 <= j < g.Across() && 0 <= k1 < g.poolRows
    modifies inputError
    ensures inputError[..] == FillRow(old(inputError[..]), g, i, j, k1, g.poolCols,
                                      Uniform(AvgShare(g, At(outputError[..], OutIdx(g, i, j)))))
  {
    ghost var f := Uniform(AvgShare(g, At(outputError[..], OutIdx(g, i, j))));
    ghost var xe := old(inputError[..]);
    var k2 := 0;
    while k2 < g.poolCols
      invariant 0 <= k2 <= g.poolCols
      invariant inputError[..] == FillRow(xe, g, i, j, k1, k2, f)
    {
      WindowCell(g, i, j, k1, k2);
      AvgWriteShare(inputError, outputError, g, i, j, k1, k2);
      k2 := k2 + 1;
    }
  }

  /** The body of the innermost loop (line 231): cell (k1, k2) of window
      (i, j) gets output_error of the window divided by the window size. */
  method AvgWriteShare(inputError: array<real>, outputError: array<real>, g: PoolShape, i: int, j: int, k1: int, k2: int)
    requires g.Valid() && inputError.Length == g.InputLen() && outputError.Length == g.OutputLen()
    requires inputError != outputError
    requires 0 <= i < g.Down() && 0 <= j < g.Across() && 0 <= k1 < g.poolRows && 0 <= k2 < g.poolCols
    modifies inputError
    ensures 0 <= WIdx(g, i, j, k1, k2) < inputError.Length
    ensures inputError[..] == old(inputError[..])[WIdx(g, i, j, k1, k2) := AvgShare(g, At(outputError[..], OutIdx(g, i, j)))]
  {
    WindowCell(g, i, j, k1, k2);
    OutCell(g, i, j);
    var share := AvgShare(g, outputError[(g.padding + i) * g.OutCols() + g.padding + j]);
    inputError[g.inCols * (i * g.stride + k1) + j * g.stride + k2] := share;
  }

  /** The loops of lines 229-233 over window (i, j). */
  method AvgFillWindow(inputError: array<real>, outputError: array<real>, g: PoolShape, i: int, j: int)
    requires g.Valid() && inputError.Length == g.InputLen() && outputError.Length == g.OutputLen()
    requires inputError != outputError
    requires 0 <= i < g.Down() && 0 <= j < g.Across()
    modifies inputError
    ensures inputError[..] == FillWindow(old(inputError[..]), g, i, j, g.poolRows,
                                         Uniform(AvgShare(g, At(outputError[..], OutIdx(g, i, j)))))
  {
    var k1 := 0;
    while k1 < g.poolRows
      invariant 0 <= k1 <= g.poolRows
      invariant inputError[..] == FillWindow(old(inputError[..]), g, i, j, k1,
                                             Uniform(AvgShare(g, At(outputError[..], OutIdx(g, i, j)))))
    {
      AvgFillRow(inputError, outputError, g, i, j, k1);
      k1 := k1 + 1;
    }
  }

  /** One pass of the loop of lines 228-234: the windows of row i.  The
      average pass reads no input and carries no indices; the model's state
      keeps index1 and index2 at 0. */
  method AvgBackPropLine(inputError: array<real>, outputError: array<real>, g: PoolShape, i: int)
    requires g.Valid() && inputError.Length == g.InputLen() && outputError.Length == g.OutputLen()
    requires inputError != outputError && 0 <= i < g.Down()
    modifies inputError
    ensures PoolState(inputError[..], 0, 0)
         == LineBack(g, AveragePool, [], outputError[..], PoolState(old(inputError[..]), 0, 0), i, g.Across())
  {
    ghost var st0 := PoolState(inputError[..], 0, 0);
    var j := 0;
    while j < g.Across()
      invariant 0 <= j <= g.Across()
      invariant PoolState(inputError[..], 0, 0) == LineBack(g, AveragePool, [], outputError[..], st0, i, j)
    {
      AvgFillWindow(inputError, outputError, g, i, j);
      j := j + 1;
    }
  }

  /** avarage_pooling_back_prop (lines 222-236): every window overwrites
      its cells of input_error with 1/(sub_pool_i*sub_pool_j) of the
      window's output error. */
  method AveragePoolingBackProp(inputError: array<real>, outputError: array<real>, g: PoolShape)
    requires g.Valid() && inputError.Length == g.InputLen() && outputError.Length == g.OutputLen()
    requires inputError != outputError
    modifies inputError
    ensures inputError[..] == PoolBack(g, AveragePool, [], outputError[..], PoolState(old(inputError[..]), 0, 0)).err
  {
    ghost var st0 := PoolState(inputError[..], 0, 0);
    var i := 0;
    while i < g.Down()
      invariant 0 <= i <= g.Down()
      invariant PoolState(inputError[..], 0, 0) == GridBack(g, AveragePool, [], outputError[..], st0, i)
    {
      AvgBackPropLine(inputError, outputError, g, i);
      i := i + 1;
    }
  }
}
