/** Max pooling and average pooling of one feature map held in a flat
    row-major buffer, forward and backward (llab/gpu/convolutional.c,
    lines 98-236). */
module Pooling {
  import opened Tensor

  /** The dimensions of one pooling call. */
  datatype PoolShape = PoolShape(inRows: nat, inCols: nat, poolRows: nat, poolCols: nat,
                                 stride: nat, padding: nat)
  {
    /** The calls the model admits: a positive stride and a window that fits
        in the input.  Nothing in the C code checks it; a zero stride divides
        by zero, and a larger window either runs no loop or reads past the
        input, as for convolution. */
    predicate Valid() { stride >= 1 && poolRows <= inRows && poolCols <= inCols }

    function OutRows(): nat requires Valid() { OutSize(inRows, poolRows, stride, padding) }
    function OutCols(): nat requires Valid() { OutSize(inCols, poolCols, stride, padding) }
    function InputLen(): nat { inRows * inCols }
    function OutputLen(): nat requires Valid() { OutRows() * OutCols() }

    /** The number of window positions down and across:
        output_i - 2*padding and output_j - 2*padding. */
    function Down(): nat requires Valid() { OutRows() - 2 * padding }
    function Across(): nat requires Valid() { OutCols() - 2 * padding }

    /** (i, j) names a window position and (k1, k2) a cell inside the window. */
    predicate InWindow(i: int, j: int, k1: int, k2: int)
      requires Valid()
    {
      0 <= i < Down() && 0 <= j < Across() && 0 <= k1 < poolRows && 0 <= k2 < poolCols
    }
  }

  /** The input cell (k1, k2) of window (i, j):
      input_j*(i*stride+k1) + j*stride + k2. */
  function WIdx(g: PoolShape, i: int, j: int, k1: int, k2: int): int
  {
    g.inCols * (i * g.stride + k1) + j * g.stride + k2
  }

  /** The output cell of window (i, j): (padding+i)*output_j + padding + j. */
  function OutIdx(g: PoolShape, i: int, j: int): int
    requires g.Valid()
  {
    (g.padding + i) * g.OutCols() + g.padding + j
  }

  /** s[idx], or 0 where idx is outside s (the loops never read there). */
  function At(s: seq<real>, idx: int): real
  {
    if 0 <= idx < |s| then s[idx] else 0.0
  }

  /** Every window cell the loops address is inside the input and sits at
      row i*stride + k1, column j*stride + k2. */
  lemma WindowCell(g: PoolShape, i: int, j: int, k1: int, k2: int)
    requires g.Valid() && g.InWindow(i, j, k1, k2)
    ensures 0 <= WIdx(g, i, j, k1, k2) < g.InputLen()
    ensures WIdx(g, i, j, k1, k2) / g.inCols == i * g.stride + k1
    ensures WIdx(g, i, j, k1, k2) % g.inCols == j * g.stride + k2
  {
    var s := g.stride;
    MulMono(i, g.OutRows() - 2 * g.padding - 1, s);
    MulMono(j, g.OutCols() - 2 * g.padding - 1, s);
    var row, col := i * s + k1, j * s + k2;
    assert WIdx(g, i, j, k1, k2) == row * g.inCols + col;
    GridIndex(row, col, g.inRows, g.inCols);
  }

  /** Two cells of one window never share an input cell. */
  lemma WindowInjective(g: PoolShape, i: int, j: int, k1: int, k2: int, l1: int, l2: int)
    requires g.Valid() && g.InWindow(i, j, k1, k2) && g.InWindow(i, j, l1, l2)
    requires WIdx(g, i, j, k1, k2) == WIdx(g, i, j, l1, l2)
    ensures k1 == l1 && k2 == l2
  {
    WindowCell(g, i, j, k1, k2);
    WindowCell(g, i, j, l1, l2);
  }

  /** The output cell of every window position is an interior cell. */
  lemma OutCell(g: PoolShape, i: int, j: int)
    requires g.Valid() && 0 <= i < g.Down() && 0 <= j < g.Across()
    ensures 0 <= OutIdx(g, i, j) < g.OutputLen()
    ensures Interior(g.OutRows(), g.OutCols(), g.padding, OutIdx(g, i, j))
    ensures OutIdx(g, i, j) / g.OutCols() == g.padding + i && OutIdx(g, i, j) % g.OutCols() == g.padding + j
  {
    InteriorCell(g.OutRows(), g.OutCols(), g.padding, g.padding + i, g.padding + j);
  }

  // ----- max pooling, forward (lines 98-118) -----

  /** The running maximum of lines 107-109 after cells k2 = 0 .. n-1 of
      window row k1, starting from m0: a cell replaces the maximum only
      when strictly greater. */
  function MaxRow(input: seq<real>, g: PoolShape, i: int, j: int, k1: int, n: nat, m0: real): real
  {
    if n == 0 then m0
    else
      var m := MaxRow(input, g, i, j, k1, n - 1, m0);
      var v := At(input, WIdx(g, i, j, k1, n - 1));
      if v > m then v else m
  }

  /** The running maximum after window rows k1 = 0 .. n-1 of window (i, j). */
  function MaxWindow(input: seq<real>, g: PoolShape, i: int, j: int, n: nat, m0: real): real
  {
    if n == 0 then m0
    else MaxRow(input, g, i, j, n - 1, g.poolCols, MaxWindow(input, g, i, j, n - 1, m0))
  }

  /** The running maximum of a row is at least its start and every cell
      scanned, and it is the start or one of those cells. */
  lemma {:induction false} MaxRowBounds(input: seq<real>, g: PoolShape, i: int, j: int, k1: int, n: nat, m0: real)
    ensures MaxRow(input, g, i, j, k1, n, m0) >= m0
    ensures forall k2 :: 0 <= k2 < n ==> MaxRow(input, g, i, j, k1, n, m0) >= At(input, WIdx(g, i, j, k1, k2))
    ensures MaxRow(input, g, i, j, k1, n, m0) == m0
         || exists k2 :: 0 <= k2 < n && MaxRow(input, g, i, j, k1, n, m0) == At(input, WIdx(g, i, j, k1, k2))
  {
    if n > 0 {
      MaxRowBounds(input, g, i, j, k1, n - 1, m0);
    }
  }

  /** The value max pooling writes for a window is at least the sentinel it
      starts from and every cell of the window, and it is the sentinel or
      one of those cells. */
  lemma {:induction false} MaxWindowBounds(input: seq<real>, g: PoolShape, i: int, j: int, n: nat, m0: real)
    ensures MaxWindow(input, g, i, j, n, m0) >= m0
    ensures forall k1, k2 :: 0 <= k1 < n && 0 <= k2 < g.poolCols ==>
      MaxWindow(input, g, i, j, n, m0) >= At(input, WIdx(g, i, j, k1, k2))
    ensures MaxWindow(input, g, i, j, n, m0) == m0
         || exists k1, k2 :: 0 <= k1 < n && 0 <= k2 < g.poolCols && MaxWindow(input, g, i, j, n, m0) == At(input, WIdx(g, i, j, k1, k2))
  {
    if n > 0 {
      var prev := MaxWindow(input, g, i, j, n - 1, m0);
      MaxWindowBounds(input, g, i, j, n - 1, m0);
      MaxRowBounds(input, g, i, j, n - 1, g.poolCols, prev);
    }
  }

  /** The value the C variable max holds when window (i, j) starts: -9999
      before the first window (line 102), -99999 after every reset
      (line 113). */
  function Sentinel(i: int, j: int): real
  {
    if i == 0 && j == 0 then -9999.0 else -99999.0
  }

  /** The output buffer after max_pooling_feed_forward: the output cell of
      each window holds the window's running maximum, every other cell keeps
      its old value. */
  function MaxPoolForward(g: PoolShape, input: seq<real>, out: seq<real>): (r: seq<real>)
    requires g.Valid() && |out| == g.OutputLen()
    ensures |r| == |out|
  {
    var w, p := g.OutCols(), g.padding;
    seq(|out|, idx requires 0 <= idx < |out| =>
      if Interior(g.OutRows(), w, p, idx)
      then MaxWindow(input, g, idx / w - p, idx % w - p, g.poolRows, Sentinel(idx / w - p, idx % w - p))
      else out[idx])
  }

  /** Window (i, j) of the forward result holds that window's maximum. */
  lemma MaxPoolForwardAt(g: PoolShape, input: seq<real>, out: seq<real>, i: int, j: int)
    requires g.Valid() && |out| == g.OutputLen() && 0 <= i < g.Down() && 0 <= j < g.Across()
    ensures 0 <= OutIdx(g, i, j) < |out|
    ensures MaxPoolForward(g, input, out)[OutIdx(g, i, j)]
         == MaxWindow(input, g, i, j, g.poolRows, Sentinel(i, j))
  {
    OutCell(g, i, j);
  }

  /** The innermost loop of lines 107-110: row k1 of window (i, j). */
  method MaxOfRow(input: array<real>, g: PoolShape, i: int, j: int, k1: int, m0: real) returns (m: real)
    requires g.Valid() && input.Length == g.InputLen()
    requires 0 <= i < g.Down() && 0 <= j < g.Across() && 0 <= k1 < g.poolRows
    ensures m == MaxRow(input[..], g, i, j, k1, g.poolCols, m0)
  {
    m := m0;
    var k2 := 0;
    while k2 < g.poolCols
      invariant 0 <= k2 <= g.poolCols
      invariant m == MaxRow(input[..], g, i, j, k1, k2, m0)
    {
      WindowCell(g, i, j, k1, k2);
      if input[g.inCols * (i * g.stride + k1) + j * g.stride + k2] > m {
        m := input[g.inCols * (i * g.stride + k1) + j * g.stride + k2];
      }
      k2 := k2 + 1;
    }
  }

  /** The loops of lines 106-111: the running maximum over window (i, j). */
  method MaxOfWindow(input: array<real>, g: PoolShape, i: int, j: int, m0: real) returns (m: real)
    requires g.Valid() && input.Length == g.InputLen()
    requires 0 <= i < g.Down() && 0 <= j < g.Across()
    ensures m == MaxWindow(input[..], g, i, j, g.poolRows, m0)
  {
    m := m0;
    var k1 := 0;
    while k1 < g.poolRows
      invariant 0 <= k1 <= g.poolRows
      invariant m == MaxWindow(input[..], g, i, j, k1, m0)
    {
      m := MaxOfRow(input, g, i, j, k1, m);
      k1 := k1 + 1;
    }
  }

  /** One pass of the loop of lines 105-114: the windows of row i, with the
      C variable max carried in and out. */
  method MaxPoolLine(input: array<real>, output: array<real>, g: PoolShape, i: int, max0: real)
    returns (max: real)
    requires g.Valid() && input.Length == g.InputLen() && output.Length == g.OutputLen()
    requires output != input && 0 <= i < g.Down()
    requires max0 == Sentinel(i, 0)
    modifies output
    ensures max == -99999.0
    ensures forall idx :: 0 <= idx < output.Length ==>
      output[idx] == (if OutIdx(g, i, 0) <= idx < OutIdx(g, i, 0) + g.Across()
                      then MaxPoolForward(g, input[..], old(output[..]))[idx] else old(output[idx]))
  {
    ghost var before := output[..];
    ghost var target := MaxPoolForward(g, input[..], before);
    var start := OutIdx(g, i, 0);
    max := max0;
    var j := 0;
    while j < g.Across()
      invariant 0 <= j <= g.Across()
      invariant max == Sentinel(i, j)
      invariant forall idx :: 0 <= idx < output.Length ==>
        output[idx] == (if start <= idx < start + j then target[idx] else before[idx])
    {
      max := MaxOfWindow(input, g, i, j, max);
      MaxPoolForwardAt(g, input[..], before, i, j);
      output[(g.padding + i) * g.OutCols() + g.padding + j] := max;
      max := -99999.0;
      j := j + 1;
    }
  }

  /** max_pooling_feed_forward (lines 98-118): the output cell of every
      window position receives the window's running maximum; the padding
      ring of the output is not written. */
  method MaxPoolingFeedForward(input: array<real>, output: array<real>, g: PoolShape)
    requires g.Valid() && input.Length == g.InputLen() && output.Length == g.OutputLen()
    requires output != input
    modifies output
    ensures output[..] == MaxPoolForward(g, input[..], old(output[..]))
  {
    ghost var before := output[..];
    ghost var target := MaxPoolForward(g, input[..], before);
    var h, w, p := g.OutRows(), g.OutCols(), g.padding;
    forall idx | 0 <= idx < output.Length && idx < p * w + p
      ensures target[idx] == before[idx]
    {
      PaddingBefore(h, w, p, idx);
    }
    var max := -9999.0;
    var i := 0;
    while i < g.Down()
      invariant 0 <= i <= g.Down()
      invariant max == (if i == 0 then -9999.0 else -99999.0)
      invariant DoneUpTo(output[..], before, target, (p + i) * w + p)
    {
      max := MaxPoolLine(input, output, g, i, max);
      forall idx | 0 <= idx < output.Length && (p + i) * w + (w - p) <= idx < (p + i + 1) * w + p
        ensures target[idx] == before[idx]
      {
        PaddingBetween(h, w, p, p + i, idx);
      }
      i := i + 1;
    }
    forall idx | 0 <= idx < output.Length && (h - p) * w + p <= idx
      ensures target[idx] == before[idx]
    {
      PaddingAfter(h, w, p, idx);
    }
  }

  // ----- average pooling, forward (lines 188-205) -----

  /** The running sum of line 198 over cells k2 = 0 .. n-1 of window row k1. */
  function SumRow(input: seq<real>, g: PoolShape, i: int, j: int, k1: int, n: nat, s0: real): real
  {
    if n == 0 then s0 else SumRow(input, g, i, j, k1, n - 1, s0) + At(input, WIdx(g, i, j, k1, n - 1))
  }

  /** The running sum over window rows k1 = 0 .. n-1 of window (i, j). */
  function SumWindow(input: seq<real>, g: PoolShape, i: int, j: int, n: nat, s0: real): real
  {
    if n == 0 then s0 else SumRow(input, g, i, j, n - 1, g.poolCols, SumWindow(input, g, i, j, n - 1, s0))
  }

  /** The number of cells of a window, sub_pool_i*sub_pool_j, as the divisor
      of line 201. */
  function WindowSize(g: PoolShape): real
  {
    (g.poolRows * g.poolCols) as real
  }

  /** The output buffer after avarage_pooling_feed_forward: the output cell
      of each window holds the window's sum divided by its size. */
  function AvgPoolForward(g: PoolShape, input: seq<real>, out: seq<real>): (r: seq<real>)
    requires g.Valid() && g.poolRows >= 1 && g.poolCols >= 1 && |out| == g.OutputLen()
    ensures |r| == |out|
  {
    var w, p := g.OutCols(), g.padding;
    seq(|out|, idx requires 0 <= idx < |out| =>
      if Interior(g.OutRows(), w, p, idx)
      then SumWindow(input, g, idx / w - p, idx % w - p, g.poolRows, 0.0) / WindowSize(g)
      else out[idx])
  }

  lemma AvgPoolForwardAt(g: PoolShape, input: seq<real>, out: seq<real>, i: int, j: int)
    requires g.Valid() && g.poolRows >= 1 && g.poolCols >= 1 && |out| == g.OutputLen()
    requires 0 <= i < g.Down() && 0 <= j < g.Across()
    ensures 0 <= OutIdx(g, i, j) < |out|
    ensures AvgPoolForward(g, input, out)[OutIdx(g, i, j)] == SumWindow(input, g, i, j, g.poolRows, 0.0) / WindowSize(g)
  {
    OutCell(g, i, j);
  }

  /** The innermost loop of lines 197-199: row k1 of window (i, j). */
  method SumOfRow(input: array<real>, g: PoolShape, i: int, j: int, k1: int, s0: real) returns (sum: real)
    requires g.Valid() && input.Length == g.InputLen()
    requires 0 <= i < g.Down() && 0 <= j < g.Across() && 0 <= k1 < g.poolRows
    ensures sum == SumRow(input[..], g, i, j, k1, g.poolCols, s0)
  {
    sum := s0;
    var k2 := 0;
    while k2 < g.poolCols
      invariant 0 <= k2 <= g.poolCols
      invariant sum == SumRow(input[..], g, i, j, k1, k2, s0)
    {
      WindowCell(g, i, j, k1, k2);
      sum := sum + input[g.inCols * (i * g.stride + k1) + j * g.stride + k2];
      k2 := k2 + 1;
    }
  }

  /** The loops of lines 196-200: the sum over window (i, j). */
  method SumOfWindow(input: array<real>, g: PoolShape, i: int, j: int) returns (sum: real)
    requires g.Valid() && input.Length == g.InputLen()
    requires 0 <= i < g.Down() && 0 <= j < g.Across()
    ensures sum == SumWindow(input[..], g, i, j, g.poolRows, 0.0)
  {
    sum := 0.0;
    var k1 := 0;
    while k1 < g.poolRows
      invariant 0 <= k1 <= g.poolRows
      invariant sum == SumWindow(input[..], g, i, j, k1, 0.0)
    {
      sum := SumOfRow(input, g, i, j, k1, sum);
      k1 := k1 + 1;
    }
  }

  /** One pass of the loop of lines 195-203: the windows of row i. */
  method AvgPoolLine(input: array<real>, output: array<real>, g: PoolShape, i: int)
    requires g.Valid() && g.poolRows >= 1 && g.poolCols >= 1
    requires input.Length == g.InputLen() && output.Length == g.OutputLen()
    requires output != input && 0 <= i < g.Down()
    modifies output
    ensures forall idx :: 0 <= idx < output.Length ==>
      output[idx] == (if OutIdx(g, i, 0) <= idx < OutIdx(g, i, 0) + g.Across()
                      then AvgPoolForward(g, input[..], old(output[..]))[idx] else old(output[idx]))
  {
    ghost var before := output[..];
    ghost var target := AvgPoolForward(g, input[..], before);
    var start := OutIdx(g, i, 0);
    var j := 0;
    while j < g.Across()
      invariant 0 <= j <= g.Across()
      invariant forall idx :: 0 <= idx < output.Length ==>
        output[idx] == (if start <= idx < start + j then target[idx] else before[idx])
    {
      var sum := SumOfWindow(input, g, i, j);
      AvgPoolForwardAt(g, input[..], before, i, j);
      output[(g.padding + i) * g.OutCols() + g.padding + j] := sum / (g.poolRows * g.poolCols) as real;
      j := j + 1;
    }
  }

  /** avarage_pooling_feed_forward (lines 188-205): the output cell of every
      window position receives the window's mean; the padding ring is not
      written.  A window of no cells would divide by zero in the C code; the
      model requires a window of at least one cell. */
  method AveragePoolingFeedForward(input: array<real>, output: array<real>, g: PoolShape)
    requires g.Valid() && g.poolRows >= 1 && g.poolCols >= 1
    requires input.Length == g.InputLen() && output.Length == g.OutputLen()
    requires output != input
    modifies output
    ensures output[..] == AvgPoolForward(g, input[..], old(output[..]))
  {
    ghost var before := output[..];
    ghost var target := AvgPoolForward(g, input[..], before);
    var h, w, p := g.OutRows(), g.OutCols(), g.padding;
    forall idx | 0 <= idx < output.Length && idx < p * w + p
      ensures target[idx] == before[idx]
    {
      PaddingBefore(h, w, p, idx);
    }
    var i := 0;
    while i < g.Down()
      invariant 0 <= i <= g.Down()
      invariant DoneUpTo(output[..], before, target, (p + i) * w + p)
    {
      AvgPoolLine(input, output, g, i);
      forall idx | 0 <= idx < output.Length && (p + i) * w + (w - p) <= idx < (p + i + 1) * w + p
        ensures target[idx] == before[idx]
      {
        PaddingBetween(h, w, p, p + i, idx);
      }
      i := i + 1;
    }
    forall idx | 0 <= idx < output.Length && (h - p) * w + p <= idx
      ensures target[idx] == before[idx]
    {
      PaddingAfter(h, w, p, idx);
    }
  }

  /** n copies of x added up: n * x, written without a product so that the
      bounds below stay linear. */
  function Repeat(n: nat, x: real): real
  {
    if n == 0 then 0.0 else Repeat(n - 1, x) + x
  }

  lemma {:induction false} RepeatIsProduct(n: nat, x: real)
    ensures Repeat(n, x) == (n as real) * x
    decreases n
  {
    if n > 0 {
      RepeatIsProduct(n - 1, x);
      assert (n as real) * x == ((n - 1) as real) * x + x;
    }
  }

  /** poolRows copies of poolCols copies of x: the window size times x. */
  lemma WindowRepeat(g: PoolShape, x: real)
    ensures Repeat(g.poolRows, Repeat(g.poolCols, x)) == WindowSize(g) * x
  {
    RepeatIsProduct(g.poolCols, x);
    RepeatIsProduct(g.poolRows, Repeat(g.poolCols, x));
    assert (g.poolRows as real) * ((g.poolCols as real) * x) == ((g.poolRows as real) * (g.poolCols as real)) * x;
  }

  /** The window sum lies between size * lo and size * hi when every cell of
      the window lies between lo and hi; so the average pooled value lies
      between the smallest and the largest cell of its window. */
  lemma {:induction false} SumRowBounds(input: seq<real>, g: PoolShape, i: int, j: int, k1: int, n: nat,
                                        s0: real, lo: real, hi: real)
    requires forall k2 :: 0 <= k2 < n ==> lo <= At(input, WIdx(g, i, j, k1, k2)) <= hi
    ensures s0 + Repeat(n, lo) <= SumRow(input, g, i, j, k1, n, s0) <= s0 + Repeat(n, hi)
    decreases n
  {
    if n > 0 {
      SumRowBounds(input, g, i, j, k1, n - 1, s0, lo, hi);
    }
  }

  lemma {:induction false} SumWindowBounds(input: seq<real>, g: PoolShape, i: int, j: int, n: nat, lo: real, hi: real)
    requires forall k1, k2 :: 0 <= k1 < n && 0 <= k2 < g.poolCols ==> lo <= At(input, WIdx(g, i, j, k1, k2)) <= hi
    ensures Repeat(n, Repeat(g.poolCols, lo)) <= SumWindow(input, g, i, j, n, 0.0) <= Repeat(n, Repeat(g.poolCols, hi))
    decreases n
  {
    if n > 0 {
      SumWindowBounds(input, g, i, j, n - 1, lo, hi);
      SumRowBounds(input, g, i, j, n - 1, g.poolCols, SumWindow(input, g, i, j, n - 1, 0.0), lo, hi);
    }
  }

  /** The average-pooled value of a window lies between any lower and upper
      bound of the window's cells. */
  lemma AverageWithinBounds(input: seq<real>, g: PoolShape, i: int, j: int, lo: real, hi: real)
    requires g.Valid() && g.poolRows >= 1 && g.poolCols >= 1
    requires forall k1, k2 :: 0 <= k1 < g.poolRows && 0 <= k2 < g.poolCols ==> lo <= At(input, WIdx(g, i, j, k1, k2)) <= hi
    ensures lo <= SumWindow(input, g, i, j, g.poolRows, 0.0) / WindowSize(g) <= hi
  {
    SumWindowBounds(input, g, i, j, g.poolRows, lo, hi);
    WindowRepeat(g, lo);
    WindowRepeat(g, hi);
    assert WindowSize(g) >= 1.0 by {
      MulMono(1, g.poolRows, g.poolCols);
    }
    QuotientWithin(SumWindow(input, g, i, j, g.poolRows, 0.0), WindowSize(g), lo, hi);
  }

  /** n * lo <= x <= n * hi gives lo <= x / n <= hi for a positive n. */
  lemma QuotientWithin(x: real, n: real, lo: real, hi: real)
    requires n > 0.0 && n * lo <= x <= n * hi
    ensures lo <= x / n <= hi
  {
    var q := x / n;
    assert (q - lo) * n == x - n * lo;
    assert (hi - q) * n == n * hi - x;
  }
}
