/**
  Local response normalisation of llab/gpu/normalization.c, at one position
  (index_ac, index_ai, index_aj) of a depth x rows x cols tensor.

  Both passes clamp the same channel window [lower, upper] around index_ac
  with half-width (int)(n_constant/2), sum the squares of the tensor along
  that window at (index_ai, index_aj), and form k + alpha*sum. `pow` (the C
  library's) is a function parameter.
*/
module Lrn {
  import opened Tensor
  import opened Buffers

  /** C's (int) cast of a float: truncation toward zero. */
  function Trunc(x: real): int
  {
    if x >= 0.0 then x.Floor else -((-x).Floor)
  }

  /** The window bounds of normalization.c:26-34, also used verbatim at
      70-78. */
  function Lower(ac: int, nConstant: real): int
  {
    if ac - Trunc(nConstant / 2.0) < 0 then 0 else ac - Trunc(nConstant / 2.0)
  }

  function Upper(ac: int, nConstant: real, depth: int): int
  {
    if ac + Trunc(nConstant / 2.0) > depth - 1 then depth - 1 else ac + Trunc(nConstant / 2.0)
  }

  /** The window is [max(0, ac - h), min(depth-1, ac + h)] with h the
      truncated half of n_constant: a channel c is in it exactly when it is
      a channel of the tensor within h of ac. For a non-negative n_constant it
      contains ac. */
  lemma WindowIsClamped(ac: int, nConstant: real, depth: int, c: int)
    requires 0 <= ac < depth
    ensures Lower(ac, nConstant) <= c <= Upper(ac, nConstant, depth) <==>
      0 <= c < depth && ac - Trunc(nConstant / 2.0) <= c <= ac + Trunc(nConstant / 2.0)
    ensures nConstant >= 0.0 ==> Lower(ac, nConstant) <= ac <= Upper(ac, nConstant, depth)
  {
  }

  /** Flat index of (c, ai, aj) in a depth x rows x cols tensor. */
  function At3(c: int, ai: int, aj: int, rows: int, cols: int): int
  {
    c * rows * cols + ai * cols + aj
  }

  /** The shape of one LRN call. */
  datatype LrnShape = LrnShape(depth: nat, rows: nat, cols: nat, ac: int, ai: int, aj: int)
  {
    predicate Valid()
    {
      0 <= ac < depth && 0 <= ai < rows && 0 <= aj < cols
    }

    function Size(): nat
    {
      depth * rows * cols
    }
  }

  lemma CellInTensor(g: LrnShape, c: int)
    requires g.Valid() && 0 <= c < g.depth
    ensures 0 <= At3(c, g.ai, g.aj, g.rows, g.cols) < g.Size()
  {
    Flat3(c, g.ai, g.aj, g.depth, g.rows, g.cols);
  }

  /** Distinct channels at the same (ai, aj) are distinct cells. */
  lemma ChannelsApart(g: LrnShape, c1: int, c2: int)
    requires g.Valid() && 0 <= c1 < g.depth && 0 <= c2 < g.depth && c1 != c2
    ensures At3(c1, g.ai, g.aj, g.rows, g.cols) != At3(c2, g.ai, g.aj, g.rows, g.cols)
  {
    var rc := g.rows * g.cols;
    GridIndex(g.ai, g.aj, g.rows, g.cols);
    assert c1 * g.rows * g.cols == c1 * rc && c2 * g.rows * g.cols == c2 * rc;
    RowCol(At3(c1, g.ai, g.aj, g.rows, g.cols), rc, c1);
    RowCol(At3(c2, g.ai, g.aj, g.rows, g.cols), rc, c2);
  }

  /** Sum of the squares of channels lo .. hi-1 at (ai, aj). */
  function SquareSum(t: seq<real>, g: LrnShape, lo: int, hi: int): real
    requires g.Valid() && |t| == g.Size() && 0 <= lo && hi <= g.depth
    decreases hi - lo
  {
    if hi <= lo then 0.0
    else
      CellInTensor(g, hi - 1);
      var v := t[At3(hi - 1, g.ai, g.aj, g.rows, g.cols)];
      SquareSum(t, g, lo, hi - 1) + v * v
  }

  lemma {:induction false} SquareSumNonNegative(t: seq<real>, g: LrnShape, lo: int, hi: int)
    requires g.Valid() && |t| == g.Size() && 0 <= lo && hi <= g.depth
    ensures SquareSum(t, g, lo, hi) >= 0.0
    decreases hi - lo
  {
    if hi > lo {
      SquareSumNonNegative(t, g, lo, hi - 1);
      CellInTensor(g, hi - 1);
      var v := t[At3(hi - 1, g.ai, g.aj, g.rows, g.cols)];
      assert v * v >= 0.0;
    }
  }

  /** k + alpha * (sum of squares over the clamped window). */
  function Scale(t: seq<real>, g: LrnShape, nConstant: real, alpha: real, k: real): real
    requires g.Valid() && |t| == g.Size()
  {
    var lo, hi := Lower(g.ac, nConstant), Upper(g.ac, nConstant, g.depth);
    k + alpha * (if lo <= hi then SquareSum(t, g, lo, hi + 1) else 0.0)
  }

  /** With a non-negative alpha the scale never drops below k, and with a
      window of one channel (n_constant below 2) the sum covers the cell
      (ac, ai, aj) alone. */
  lemma ScaleBounds(t: seq<real>, g: LrnShape, nConstant: real, alpha: real, k: real)
    requires g.Valid() && |t| == g.Size()
    ensures alpha >= 0.0 ==> Scale(t, g, nConstant, alpha, k) >= k
    ensures 0.0 <= nConstant < 2.0 ==>
      Scale(t, g, nConstant, alpha, k) == k + alpha * SquareSum(t, g, g.ac, g.ac + 1)
  {
    var lo, hi := Lower(g.ac, nConstant), Upper(g.ac, nConstant, g.depth);
    if lo <= hi {
      SquareSumNonNegative(t, g, lo, hi + 1);
    }
    if 0.0 <= nConstant < 2.0 {
      assert Trunc(nConstant / 2.0) == 0;
    }
  }

  /** The loop of normalization.c:36-39 (and 80-83). */
  method SumSquares(tensor: array<real>, g: LrnShape, lo: int, hi: int) returns (sum: real)
    requires g.Valid() && tensor.Length == g.Size() && 0 <= lo && hi < g.depth
    ensures sum == if lo <= hi then SquareSum(tensor[..], g, lo, hi + 1) else 0.0
  {
    sum := 0.0;
    var c := lo;
    while c <= hi
      invariant lo <= hi ==> lo <= c <= hi + 1
      invariant hi < lo ==> c == lo
      invariant sum == if lo <= hi then SquareSum(tensor[..], g, lo, c) else 0.0
    {
      CellInTensor(g, c);
      var temp := tensor[At3(c, g.ai, g.aj, g.rows, g.cols)];
      sum := sum + temp * temp;
      c := c + 1;
    }
  }

  /** `local_response_normalization_feed_forward`: writes exactly one output
      cell, (ac, ai, aj), with tensor[that cell] / pow(Scale, beta); every
      other output cell is unchanged. `output` may be `tensor`. */
  method LrnFeedForward(tensor: array<real>, output: array<real>, g: LrnShape,
                        nConstant: real, beta: real, alpha: real, k: real, pow: (real, real) -> real)
    requires g.Valid() && tensor.Length == g.Size() && output.Length == g.Size()
    modifies output
    ensures var x := At3(g.ac, g.ai, g.aj, g.rows, g.cols);
      0 <= x < g.Size() &&
      output[x] == FloatDiv(old(tensor[x]), pow(Scale(old(tensor[..]), g, nConstant, alpha, k), beta)) &&
      forall y :: 0 <= y < output.Length && y != x ==> output[y] == old(output[y])
  {
    var lo, hi := Lower(g.ac, nConstant), Upper(g.ac, nConstant, g.depth);
    var sum := SumSquares(tensor, g, lo, hi);
    sum := k + alpha * sum;
    assert sum == Scale(old(tensor[..]), g, nConstant, alpha, k);
    sum := pow(sum, beta);
    CellInTensor(g, g.ac);
    var x := At3(g.ac, g.ai, g.aj, g.rows, g.cols);
    output[x] := FloatDiv(tensor[x], sum);
  }

  /** The amount normalization.c:92/95 adds into tensor_error at channel c:
      the self term 1/pow(s, beta) - 2*beta*alpha*x_c^2 / pow(s, beta+1) when
      c is ac, the cross term -2*beta*alpha*x_c*x_ac / pow(s, beta+1)
      otherwise. */
  function LrnDelta(t: seq<real>, g: LrnShape, c: int, sumPow: real, temp: real, beta: real, alpha: real): real
    requires g.Valid() && |t| == g.Size() && 0 <= c < g.depth
  {
    CellInTensor(g, c);
    CellInTensor(g, g.ac);
    var xc := t[At3(c, g.ai, g.aj, g.rows, g.cols)];
    var xa := t[At3(g.ac, g.ai, g.aj, g.rows, g.cols)];
    if c == g.ac then FloatDiv(1.0, sumPow) - FloatDiv(2.0 * beta * alpha * xc * xc, temp)
    else -FloatDiv(2.0 * beta * alpha * xc * xa, temp)
  }

  /** Cell y of the tensor is (c, ai, aj) for a channel c in [lo, hi). */
  predicate InWindow(g: LrnShape, lo: int, hi: int, y: int)
    requires g.Valid()
  {
    var rc := g.rows * g.cols;
    y % rc == g.ai * g.cols + g.aj && lo <= y / rc < hi
  }

  lemma ChannelCell(g: LrnShape, c: int, y: int)
    requires g.Valid() && 0 <= c < g.depth && 0 <= y
    ensures var rc := g.rows * g.cols;
      (y % rc == g.ai * g.cols + g.aj && y / rc == c) <==> y == At3(c, g.ai, g.aj, g.rows, g.cols)
  {
    var rc := g.rows * g.cols;
    GridIndex(g.ai, g.aj, g.rows, g.cols);
    assert c * g.rows * g.cols == c * rc;
    var x := At3(c, g.ai, g.aj, g.rows, g.cols);
    assert x == c * rc + (g.ai * g.cols + g.aj);
    RowCol(x, rc, c);
    assert y == (y / rc) * rc + y % rc;
  }

  /** The window holds exactly the cells (c, ai, aj) with lo <= c < hi. */
  lemma WindowCells(g: LrnShape, lo: int, hi: int, c: int)
    requires g.Valid() && 0 <= c < g.depth
    ensures InWindow(g, lo, hi, At3(c, g.ai, g.aj, g.rows, g.cols)) <==> lo <= c < hi
  {
    CellInTensor(g, c);
    ChannelCell(g, c, At3(c, g.ai, g.aj, g.rows, g.cols));
  }

  /** Cell y of tensor_error after the `+=` of every channel in [lo, hi),
      starting from `before`. */
  function Accumulated(before: seq<real>, t: seq<real>, g: LrnShape, lo: int, hi: int, y: int,
                       sumPow: real, temp: real, beta: real, alpha: real): real
    requires g.Valid() && |t| == g.Size() && |before| == g.Size() && 0 <= lo && hi <= g.depth
    requires 0 <= y < g.Size()
  {
    if InWindow(g, lo, hi, y)
    then before[y] + LrnDelta(t, g, y / (g.rows * g.cols), sumPow, temp, beta, alpha)
    else before[y]
  }

  /** Widening the window by channel c adds LrnDelta at c's cell, and only
      there. */
  lemma AccumulatedStep(before: seq<real>, t: seq<real>, g: LrnShape, lo: int, c: int, y: int,
                        sumPow: real, temp: real, beta: real, alpha: real)
    requires g.Valid() && |t| == g.Size() && |before| == g.Size() && 0 <= lo <= c < g.depth
    requires 0 <= y < g.Size()
    ensures Accumulated(before, t, g, lo, c + 1, y, sumPow, temp, beta, alpha) ==
      if y == At3(c, g.ai, g.aj, g.rows, g.cols)
      then Accumulated(before, t, g, lo, c, y, sumPow, temp, beta, alpha) + LrnDelta(t, g, c, sumPow, temp, beta, alpha)
      else Accumulated(before, t, g, lo, c, y, sumPow, temp, beta, alpha)
  {
    ChannelCell(g, c, y);
  }

  /** One `+=` of the back-prop loop, at channel c. */
  method AccumulateChannel(tensor: array<real>, tensorError: array<real>, g: LrnShape, c: int,
                           sumPow: real, temp: real, beta: real, alpha: real)
    requires g.Valid() && tensor.Length == g.Size() && tensorError.Length == g.Size()
    requires tensorError != tensor && 0 <= c < g.depth
    modifies tensorError
    ensures var x := At3(c, g.ai, g.aj, g.rows, g.cols);
      0 <= x < g.Size() &&
      tensorError[x] == old(tensorError[x]) + LrnDelta(tensor[..], g, c, sumPow, temp, beta, alpha) &&
      forall y :: 0 <= y < g.Size() && y != x ==> tensorError[y] == old(tensorError[y])
  {
    CellInTensor(g, c);
    CellInTensor(g, g.ac);
    var x := At3(c, g.ai, g.aj, g.rows, g.cols);
    var xa := At3(g.ac, g.ai, g.aj, g.rows, g.cols);
    if c == g.ac {
      tensorError[x] := tensorError[x] + (FloatDiv(1.0, sumPow) - FloatDiv(2.0 * beta * alpha * tensor[x] * tensor[x], temp));
    } else {
      tensorError[x] := tensorError[x] + -FloatDiv(2.0 * beta * alpha * tensor[x] * tensor[xa], temp);
    }
  }

  /** The loop of normalization.c:90-96 over the window lo .. hi. */
  method AccumulateWindow(tensor: array<real>, tensorError: array<real>, g: LrnShape, lo: int, hi: int,
                          sumPow: real, temp: real, beta: real, alpha: real)
    requires g.Valid() && tensor.Length == g.Size() && tensorError.Length == g.Size()
    requires tensorError != tensor && 0 <= lo && hi < g.depth
    modifies tensorError
    ensures forall y :: 0 <= y < g.Size() ==>
      tensorError[y] == Accumulated(old(tensorError[..]), tensor[..], g, lo, hi + 1, y, sumPow, temp, beta, alpha)
  {
    if hi < lo {
      return;
    }
    var c := lo;
    while c <= hi
      invariant lo <= c <= hi + 1
      invariant forall y :: 0 <= y < g.Size() ==>
        tensorError[y] == Accumulated(old(tensorError[..]), tensor[..], g, lo, c, y, sumPow, temp, beta, alpha)
    {
      ghost var prev := tensorError[..];
      AccumulateChannel(tensor, tensorError, g, c, sumPow, temp, beta, alpha);
      forall y | 0 <= y < g.Size()
        ensures tensorError[y] == Accumulated(old(tensorError[..]), tensor[..], g, lo, c + 1, y, sumPow, temp, beta, alpha)
      {
        AccumulatedStep(old(tensorError[..]), tensor[..], g, lo, c, y, sumPow, temp, beta, alpha);
        assert prev[y] == Accumulated(old(tensorError[..]), tensor[..], g, lo, c, y, sumPow, temp, beta, alpha);
      }
      c := c + 1;
    }
  }

  /** `local_response_normalization_back_prop`: tensor_error changes only at
      the cells (c, ai, aj) of the clamped window, each by exactly one `+=`
      of LrnDelta, with pow(s, beta) and pow(s, beta+1) of the same scale s as
      the forward pass. output_error is never read. */
  method LrnBackProp(tensor: array<real>, tensorError: array<real>, outputError: array<real>, g: LrnShape,
                     nConstant: real, beta: real, alpha: real, k: real, pow: (real, real) -> real)
    requires g.Valid() && tensor.Length == g.Size() && tensorError.Length == g.Size()
    requires tensorError != tensor
    modifies tensorError
    ensures var s := Scale(tensor[..], g, nConstant, alpha, k);
      forall y :: 0 <= y < g.Size() ==>
        tensorError[y] == Accumulated(old(tensorError[..]), tensor[..], g, Lower(g.ac, nConstant),
                                      Upper(g.ac, nConstant, g.depth) + 1, y, pow(s, beta), pow(s, beta + 1.0), beta, alpha)
  {
    var lo, hi := Lower(g.ac, nConstant), Upper(g.ac, nConstant, g.depth);
    var sum := SumSquares(tensor, g, lo, hi);
    sum := k + alpha * sum;
    assert sum == Scale(tensor[..], g, nConstant, alpha, k);
    var temp := sum;
    sum := pow(sum, beta);
    temp := pow(temp, beta + 1.0);
    AccumulateWindow(tensor, tensorError, g, lo, hi, sum, temp, beta, alpha);
  }
}
