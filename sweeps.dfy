/**
  The parameter sweeps of llab/gpu/utils.c: the optimiser updates
  (`update_*_nesterov`, `update_*_adam`), the L2 terms (`add_l2_*`) and the
  replica gradient sums (`sum_*_partial_derivatives`), for one
  convolutional, fully-connected or batch-normalised layer.

  A parameter buffer carries four parallel arrays: the parameter, its
  derivative (d_), and the two optimiser moments (d1_, d2_). The optimiser
  step itself (`nesterov_momentum`, `adam_algorithm`) is defined outside
  these files, so it is a function value passed in, applied cell by cell.
*/
module Sweeps {
  import opened Buffers
  import Tensor

  /** The per-element optimiser step. Nesterov reads (param, d1, d, batch)
      and returns the new (param, d1); Adam reads (param, d1, d2, d, batch)
      and returns the new (param, d1, d2). The learning rate, momentum and
      Adam constants are closed over. */
  datatype Rule =
    | Nesterov(step: (real, real, real, int) -> (real, real))
    | Adam(adamStep: (real, real, real, real, int) -> (real, real, real))

  /** What a sweep does at one index. */
  datatype Action =
    | Optimize(rule: Rule, batch: int)
    | L2(lambda: real, total: int)

  /** The four values a buffer group holds at one index. */
  datatype Cell = Cell(value: real, grad: real, m1: real, m2: real)

  /** The effect of one visit: an optimiser step moves the parameter and its
      moments and leaves the derivative; the L2 term moves only the
      derivative (ridge_regression). */
  function Act(a: Action, c: Cell): (r: Cell)
    ensures a.L2? ==> r.value == c.value && r.m1 == c.m1 && r.m2 == c.m2
    ensures a.Optimize? ==> r.grad == c.grad
    ensures a.Optimize? && a.rule.Nesterov? ==> r.m2 == c.m2
  {
    match a
    case Optimize(rule, batch) =>
      (match rule
       case Nesterov(f) =>
         var (p, v) := f(c.value, c.m1, c.grad, batch);
         c.(value := p, m1 := v)
       case Adam(g) =>
         var (p, v1, v2) := g(c.value, c.m1, c.m2, c.grad, batch);
         c.(value := p, m1 := v1, m2 := v2))
    case L2(lambda, total) =>
      c.(grad := Ridge(c.grad, c.value, lambda, total))
  }

  /** One parameter buffer and its derivative and moment buffers, e.g.
      kernels[k], d_kernels[k], d1_kernels[k], d2_kernels[k]. */
  class ParamBuffer {
    const value: array<real>
    const grad: array<real>
    const m1: array<real>
    const m2: array<real>

    ghost function Repr(): set<object>
    {
      {value, grad, m1, m2}
    }

    ghost predicate Valid()
    {
      value != grad && value != m1 && value != m2 && grad != m1 && grad != m2 && m1 != m2 &&
      grad.Length == value.Length && m1.Length == value.Length && m2.Length == value.Length
    }

    function Length(): nat
    {
      value.Length
    }

    /** The four buffers of one parameter block, as the allocator gives
        them: distinct arrays of one length. */
    constructor (value: array<real>, grad: array<real>, m1: array<real>, m2: array<real>)
      requires value != grad && value != m1 && value != m2 && grad != m1 && grad != m2 && m1 != m2
      requires grad.Length == value.Length && m1.Length == value.Length && m2.Length == value.Length
      ensures Valid() && Repr() == {value, grad, m1, m2}
      ensures this.value == value && this.grad == grad && this.m1 == m1 && this.m2 == m2
    {
      this.value := value;
      this.grad := grad;
      this.m1 := m1;
      this.m2 := m2;
    }

    ghost function CellAt(x: int): Cell
      requires Valid() && 0 <= x < Length()
      reads value, grad, m1, m2
    {
      Cell(value[x], grad[x], m1[x], m2[x])
    }

    /** One call of nesterov_momentum, adam_algorithm or ridge_regression at
        index x: only the arrays that call writes change, only at x. */
    method ApplyAt(x: int, a: Action)
      requires Valid() && 0 <= x < Length()
      modifies Repr()
      ensures CellAt(x) == Act(a, old(CellAt(x)))
      ensures forall y :: 0 <= y < Length() && y != x ==> CellAt(y) == old(CellAt(y))
    {
      match a
      case Optimize(rule, batch) =>
        match rule {
          case Nesterov(f) =>
            var (p, v) := f(value[x], m1[x], grad[x], batch);
            value[x] := p;
            m1[x] := v;
          case Adam(g) =>
            var (p, v1, v2) := g(value[x], m1[x], m2[x], grad[x], batch);
            value[x] := p;
            m1[x] := v1;
            m2[x] := v2;
        }
      case L2(lambda, total) =>
        grad[x] := Ridge(grad[x], value[x], lambda, total);
    }
  }

  /** The kernel index law of the sweeps: u*rows*cols + z*cols + w maps the
      triples with u < channels, z < rows, w < cols onto [0,
      channels*rows*cols), one index per triple and every index reached. */
  lemma KernelIndexOnto(y: int, channels: nat, rows: nat, cols: nat) returns (u: int, z: int, w: int)
    requires 0 <= y < channels * rows * cols
    ensures 0 <= u < channels && 0 <= z < rows && 0 <= w < cols
    ensures y == u * rows * cols + z * cols + w
  {
    var rc := rows * cols;
    Associate(channels, rows, cols);
    Decompose(y, channels, rc);
    u := y / rc;
    var rem := y % rc;
    Decompose(rem, rows, cols);
    z, w := rem / cols, rem % cols;
    Associate(u, rows, cols);
  }

  lemma KernelIndexOneToOne(u: int, z: int, w: int, u': int, z': int, w': int, channels: nat, rows: nat, cols: nat)
    requires 0 <= u < channels && 0 <= z < rows && 0 <= w < cols
    requires 0 <= u' < channels && 0 <= z' < rows && 0 <= w' < cols
    requires u * rows * cols + z * cols + w == u' * rows * cols + z' * cols + w'
    ensures u == u' && z == z' && w == w'
  {
    var rc := rows * cols;
    Associate(u, rows, cols);
    Associate(u', rows, cols);
    Tensor.GridIndex(z, w, rows, cols);
    Tensor.GridIndex(z', w', rows, cols);
    var y := u * rc + (z * cols + w);
    Tensor.RowCol(y, rc, u);
    Tensor.RowCol(y, rc, u');
  }

  lemma Associate(a: int, b: int, c: int)
    ensures a * b * c == a * (b * c)
  {
  }

  lemma PositiveFactor(y: int, a: int, b: int)
    requires 0 <= y < a * b && a >= 0
    ensures b >= 1
  {
  }

  /** A y below a*b splits into a quotient below a and a remainder below b. */
  lemma Decompose(y: int, a: int, b: int)
    requires 0 <= y < a * b && a >= 0
    ensures b >= 1 && 0 <= y / b < a && 0 <= y % b < b && y == (y / b) * b + y % b
  {
    PositiveFactor(y, a, b);
    var q, r := y / b, y % b;
    assert y == q * b + r && 0 <= r < b;
    Tensor.QuotientBelow(q, a, b);
    Tensor.QuotientBelow(-1, q, b);
  }


  /** The innermost loop of a sweep (`w` for kernels, `k` for weights):
      indices base .. base+count-1 are each visited once, in order. */
  method SweepRun(b: ParamBuffer, base: nat, count: nat, a: Action)
    requires b.Valid() && base + count <= b.Length()
    modifies b.Repr()
    ensures forall y :: 0 <= y < b.Length() ==>
      b.CellAt(y) == if base <= y < base + count then Act(a, old(b.CellAt(y))) else old(b.CellAt(y))
  {
    var w := 0;
    while w < count
      invariant 0 <= w <= count
      invariant forall y :: 0 <= y < b.Length() ==>
        b.CellAt(y) == if base <= y < base + w then Act(a, old(b.CellAt(y))) else old(b.CellAt(y))
    {
      b.ApplyAt(base + w, a);
      w := w + 1;
    }
  }

  /** The `z` loop over the rows of one kernel channel starting at base. */
  method SweepRows(b: ParamBuffer, base: nat, rows: nat, cols: nat, a: Action)
    requires b.Valid() && base + rows * cols <= b.Length()
    modifies b.Repr()
    ensures forall y :: 0 <= y < b.Length() ==>
      b.CellAt(y) == if base <= y < base + rows * cols then Act(a, old(b.CellAt(y))) else old(b.CellAt(y))
  {
    var z := 0;
    while z < rows
      invariant 0 <= z <= rows
      invariant base + z * cols <= base + rows * cols
      invariant forall y :: 0 <= y < b.Length() ==>
        b.CellAt(y) == if base <= y < base + z * cols then Act(a, old(b.CellAt(y))) else old(b.CellAt(y))
    {
      Tensor.MulMono(z + 1, rows, cols);
      SweepRun(b, base + z * cols, cols, a);
      assert base + z * cols + cols == base + (z + 1) * cols;
      z := z + 1;
    }
  }

  /** The `u, z, w` loops over one kernel: the flat index
      u*kernel_rows*kernel_cols + z*kernel_cols + w visits every one of the
      channels*kernel_rows*kernel_cols elements exactly once. */
  method SweepKernel(b: ParamBuffer, channels: nat, rows: nat, cols: nat, a: Action)
    requires b.Valid() && b.Length() == channels * rows * cols
    modifies b.Repr()
    ensures forall y :: 0 <= y < b.Length() ==> b.CellAt(y) == Act(a, old(b.CellAt(y)))
  {
    var u := 0;
    while u < channels
      invariant 0 <= u <= channels
      invariant u * rows * cols <= channels * rows * cols
      invariant forall y :: 0 <= y < b.Length() ==>
        b.CellAt(y) == if y < u * rows * cols then Act(a, old(b.CellAt(y))) else old(b.CellAt(y))
    {
      assert (u + 1) * rows * cols == u * rows * cols + rows * cols;
      Tensor.MulMono(u + 1, channels, rows * cols);
      assert channels * rows * cols == channels * (rows * cols);
      SweepRows(b, u * rows * cols, rows, cols, a);
      u := u + 1;
    }
  }

  /** One convolutional layer: n_kernels kernel buffers of
      channels*kernel_rows*kernel_cols elements and one bias buffer with an
      entry per kernel. */
  class ConvLayer {
    const channels: nat
    const kernelRows: nat
    const kernelCols: nat
    const kernels: seq<ParamBuffer>
    const biases: ParamBuffer

    function KernelSize(): nat
    {
      channels * kernelRows * kernelCols
    }

    ghost function KernelRepr(): set<object>
    {
      set k, o | 0 <= k < |kernels| && o in kernels[k].Repr() :: o
    }

    ghost function Repr(): set<object>
    {
      KernelRepr() + biases.Repr()
    }

    /** The derivative buffers, the only ones the gradient sum writes. */
    ghost function GradRepr(): set<object>
    {
      (set k | 0 <= k < |kernels| :: kernels[k].grad) + {biases.grad}
    }

    ghost predicate Valid()
    {
      biases.Valid() && biases.Length() == |kernels| &&
      (forall k :: 0 <= k < |kernels| ==>
        kernels[k].Valid() && kernels[k].Length() == KernelSize() && kernels[k].Repr() !! biases.Repr()) &&
      (forall k1, k2 :: 0 <= k1 < |kernels| && 0 <= k2 < |kernels| && k1 != k2 ==>
        kernels[k1].Repr() !! kernels[k2].Repr())
    }

    constructor (channels: nat, kernelRows: nat, kernelCols: nat, kernels: seq<ParamBuffer>, biases: ParamBuffer)
      requires biases.Valid() && biases.Length() == |kernels|
      requires forall k :: 0 <= k < |kernels| ==>
        kernels[k].Valid() && kernels[k].Length() == channels * kernelRows * kernelCols &&
        kernels[k].Repr() !! biases.Repr()
      requires forall k1, k2 :: 0 <= k1 < |kernels| && 0 <= k2 < |kernels| && k1 != k2 ==>
        kernels[k1].Repr() !! kernels[k2].Repr()
      ensures Valid()
      ensures this.channels == channels && this.kernelRows == kernelRows && this.kernelCols == kernelCols
      ensures this.kernels == kernels && this.biases == biases
    {
      this.channels := channels;
      this.kernelRows := kernelRows;
      this.kernelCols := kernelCols;
      this.kernels := kernels;
      this.biases := biases;
    }

    /** `update_convolutional_layer_nesterov` / `_adam` (and the same body for
        each convolutional layer of a residual layer): for each kernel k, the
        kernel sweep, then the bias of k; every element is stepped exactly
        once with the mini-batch size. */
    method Update(rule: Rule, miniBatchSize: int)
      requires Valid()
      modifies Repr()
      ensures forall k, y :: 0 <= k < |kernels| && 0 <= y < KernelSize() ==>
        kernels[k].CellAt(y) == Act(Optimize(rule, miniBatchSize), old(kernels[k].CellAt(y)))
      ensures forall k :: 0 <= k < |kernels| ==>
        biases.CellAt(k) == Act(Optimize(rule, miniBatchSize), old(biases.CellAt(k)))
    {
      var a := Optimize(rule, miniBatchSize);
      var k := 0;
      while k < |kernels|
        invariant 0 <= k <= |kernels|
        invariant forall k', y :: 0 <= k' < |kernels| && 0 <= y < KernelSize() ==>
          kernels[k'].CellAt(y) == if k' < k then Act(a, old(kernels[k'].CellAt(y))) else old(kernels[k'].CellAt(y))
        invariant forall k' :: 0 <= k' < |kernels| ==>
          biases.CellAt(k') == if k' < k then Act(a, old(biases.CellAt(k'))) else old(biases.CellAt(k'))
      {
        SweepKernel(kernels[k], channels, kernelRows, kernelCols, a);
        biases.ApplyAt(k, a);
        k := k + 1;
      }
    }

    /** `add_l2_convolutional_layer` (and `add_l2_residual_layer` per
        convolutional layer): every kernel derivative gets the L2 term of its
        own weight exactly once; no bias buffer is touched. */
    method AddL2(totalNumberWeights: int, lambda: real)
      requires Valid()
      modifies KernelRepr()
      ensures forall k, y :: 0 <= k < |kernels| && 0 <= y < KernelSize() ==>
        kernels[k].CellAt(y) == Act(L2(lambda, totalNumberWeights), old(kernels[k].CellAt(y)))
    {
      var a := L2(lambda, totalNumberWeights);
      var k := 0;
      while k < |kernels|
        invariant 0 <= k <= |kernels|
        invariant forall k', y :: 0 <= k' < |kernels| && 0 <= y < KernelSize() ==>
          kernels[k'].CellAt(y) == if k' < k then Act(a, old(kernels[k'].CellAt(y))) else old(kernels[k'].CellAt(y))
      {
        SweepKernel(kernels[k], channels, kernelRows, kernelCols, a);
        k := k + 1;
      }
    }
  }

  /** Layers whose derivative sums line up buffer by buffer. */
  ghost predicate SameConvShape(m: ConvLayer, m3: ConvLayer)
  {
    |m.kernels| == |m3.kernels| && m.KernelSize() == m3.KernelSize()
  }

  /** Either the output layer is the input layer itself, or the two share no
      buffer. */
  ghost predicate ConvSeparate(m: ConvLayer, m3: ConvLayer)
  {
    m == m3 || m.Repr() !! m3.Repr()
  }

  /** `sum_convolutional_layers_partial_derivatives` (and the residual
      variant per convolutional layer): with any argument NULL the process
      exits before writing anything; otherwise every d_kernels and d_biases
      entry of m3 becomes the sum of m's and m2's, via sum1D. */
  method SumConvDerivatives(m: ConvLayer?, m2: ConvLayer?, m3: ConvLayer?) returns (exited: bool)
    requires m != null && m2 != null && m3 != null ==>
      m.Valid() && m2.Valid() && m3.Valid() && SameConvShape(m, m3) && SameConvShape(m2, m3) &&
      ConvSeparate(m, m3) && ConvSeparate(m2, m3)
    modifies if m3 == null then {} else m3.GradRepr()
    ensures exited <==> m == null || m2 == null || m3 == null
    ensures exited && m3 != null ==> unchanged(m3.GradRepr())
    ensures !exited ==>
      forall k, y :: 0 <= k < |m3.kernels| && 0 <= y < m3.KernelSize() ==>
        m3.kernels[k].grad[y] == old(m.kernels[k].grad[y]) + old(m2.kernels[k].grad[y])
    ensures !exited ==>
      forall k :: 0 <= k < |m3.kernels| ==>
        m3.biases.grad[k] == old(m.biases.grad[k]) + old(m2.biases.grad[k])
  {
    if m == null || m2 == null || m3 == null {
      return true;
    }
    var size := m3.KernelSize();
    var k := 0;
    while k < |m.kernels|
      invariant 0 <= k <= |m.kernels|
      invariant forall k', y :: 0 <= k' < k && 0 <= y < size ==>
        m3.kernels[k'].grad[y] == old(m.kernels[k'].grad[y]) + old(m2.kernels[k'].grad[y])
      invariant forall k', y :: k <= k' < |m.kernels| && 0 <= y < size ==>
        m.kernels[k'].grad[y] == old(m.kernels[k'].grad[y]) && m2.kernels[k'].grad[y] == old(m2.kernels[k'].grad[y])
      invariant m.biases.grad[..] == old(m.biases.grad[..]) && m2.biases.grad[..] == old(m2.biases.grad[..])
    {
      SumKernel(m, m2, m3, k);
      k := k + 1;
    }
    Sum1D(m.biases.grad, m2.biases.grad, m3.biases.grad, |m3.kernels|);
    return false;
  }

  /** One sum1D call of the kernel loop, on kernel k. */
  method SumKernel(m: ConvLayer, m2: ConvLayer, m3: ConvLayer, k: nat)
    requires m.Valid() && m2.Valid() && m3.Valid() && SameConvShape(m, m3) && SameConvShape(m2, m3)
    requires ConvSeparate(m, m3) && ConvSeparate(m2, m3) && k < |m3.kernels|
    modifies m3.kernels[k].grad
    ensures forall y :: 0 <= y < m3.KernelSize() ==>
      m3.kernels[k].grad[y] == old(m.kernels[k].grad[y]) + old(m2.kernels[k].grad[y])
    ensures forall k' :: 0 <= k' < |m3.kernels| && k' != k ==>
      m.kernels[k'].grad != m3.kernels[k].grad && m2.kernels[k'].grad != m3.kernels[k].grad
    ensures m.biases.grad != m3.kernels[k].grad && m2.biases.grad != m3.kernels[k].grad
  {
    SeparateGrads(m, m3, k);
    SeparateGrads(m2, m3, k);
    Sum1D(m.kernels[k].grad, m2.kernels[k].grad, m3.kernels[k].grad, m3.KernelSize());
  }

  lemma SeparateGrads(m: ConvLayer, m3: ConvLayer, k: nat)
    requires m.Valid() && m3.Valid() && SameConvShape(m, m3) && ConvSeparate(m, m3) && k < |m3.kernels|
    ensures forall k' :: 0 <= k' < |m3.kernels| && k' != k ==> m.kernels[k'].grad != m3.kernels[k].grad
    ensures m.biases.grad != m3.kernels[k].grad
  {
    forall k' | 0 <= k' < |m3.kernels| && k' != k
      ensures m.kernels[k'].grad != m3.kernels[k].grad
    {
      assert m.kernels[k'].grad in m.kernels[k'].Repr();
      assert m.kernels[k'].grad in m.Repr();
      assert m3.kernels[k].grad in m3.kernels[k].Repr();
      assert m3.kernels[k].grad in m3.Repr();
    }
    assert m.biases.grad in m.Repr();
    assert m3.kernels[k].grad in m3.kernels[k].Repr();
    assert m3.kernels[k].grad in m3.Repr();
  }

  /** One fully-connected layer: an output*input weight buffer indexed
      j*input + k and a bias buffer with an entry per output. */
  class FcLayer {
    const inputs: nat
    const outputs: nat
    const weights: ParamBuffer
    const biases: ParamBuffer

    ghost function Repr(): set<object>
    {
      weights.Repr() + biases.Repr()
    }

    ghost predicate Valid()
    {
      weights.Valid() && biases.Valid() && weights.Repr() !! biases.Repr() &&
      weights.Length() == outputs * inputs && biases.Length() == outputs
    }

    constructor (inputs: nat, outputs: nat, weights: ParamBuffer, biases: ParamBuffer)
      requires weights.Valid() && biases.Valid() && weights.Repr() !! biases.Repr()
      requires weights.Length() == outputs * inputs && biases.Length() == outputs
      ensures Valid()
      ensures this.inputs == inputs && this.outputs == outputs
      ensures this.weights == weights && this.biases == biases
    {
      this.inputs := inputs;
      this.outputs := outputs;
      this.weights := weights;
      this.biases := biases;
    }

    /** `update_fully_connected_layer_nesterov` / `_adam`: for each output j,
        the weights j*input .. j*input+input-1, then the bias of j. */
    method Update(rule: Rule, miniBatchSize: int)
      requires Valid()
      modifies Repr()
      ensures forall y :: 0 <= y < weights.Length() ==>
        weights.CellAt(y) == Act(Optimize(rule, miniBatchSize), old(weights.CellAt(y)))
      ensures forall j :: 0 <= j < outputs ==>
        biases.CellAt(j) == Act(Optimize(rule, miniBatchSize), old(biases.CellAt(j)))
    {
      var a := Optimize(rule, miniBatchSize);
      var j := 0;
      while j < outputs
        invariant 0 <= j <= outputs
        invariant j * inputs <= outputs * inputs
        invariant forall y :: 0 <= y < weights.Length() ==>
          weights.CellAt(y) == if y < j * inputs then Act(a, old(weights.CellAt(y))) else old(weights.CellAt(y))
        invariant forall j' :: 0 <= j' < outputs ==>
          biases.CellAt(j') == if j' < j then Act(a, old(biases.CellAt(j'))) else old(biases.CellAt(j'))
      {
        Tensor.MulMono(j + 1, outputs, inputs);
        SweepRun(weights, j * inputs, inputs, a);
        biases.ApplyAt(j, a);
        j := j + 1;
      }
    }

    /** `add_l2_fully_connected_layer`: every weight derivative gets the L2
        term of its weight exactly once; the biases are not touched. */
    method AddL2(totalNumberWeights: int, lambda: real)
      requires Valid()
      modifies weights.Repr()
      ensures forall y :: 0 <= y < weights.Length() ==>
        weights.CellAt(y) == Act(L2(lambda, totalNumberWeights), old(weights.CellAt(y)))
    {
      var a := L2(lambda, totalNumberWeights);
      var j := 0;
      while j < outputs
        invariant 0 <= j <= outputs
        invariant j * inputs <= outputs * inputs
        invariant forall y :: 0 <= y < weights.Length() ==>
          weights.CellAt(y) == if y < j * inputs then Act(a, old(weights.CellAt(y))) else old(weights.CellAt(y))
      {
        Tensor.MulMono(j + 1, outputs, inputs);
        SweepRun(weights, j * inputs, inputs, a);
        j := j + 1;
      }
    }
  }

  ghost predicate FcSeparate(m: FcLayer, m3: FcLayer)
  {
    m == m3 || m.Repr() !! m3.Repr()
  }

  /** `sum_fully_connected_layers_partial_derivatives`: exits on a NULL
      argument before any write; otherwise d_weights and d_biases of m3 become
      the sums of m's and m2's, over m's input*output and output sizes. */
  method SumFcDerivatives(m: FcLayer?, m2: FcLayer?, m3: FcLayer?) returns (exited: bool)
    requires m != null && m2 != null && m3 != null ==>
      m.Valid() && m2.Valid() && m3.Valid() &&
      m2.inputs == m.inputs && m2.outputs == m.outputs && m3.inputs == m.inputs && m3.outputs == m.outputs &&
      FcSeparate(m, m3) && FcSeparate(m2, m3)
    modifies if m3 == null then {} else {m3.weights.grad, m3.biases.grad}
    ensures exited <==> m == null || m2 == null || m3 == null
    ensures exited && m3 != null ==> unchanged(m3.weights.grad, m3.biases.grad)
    ensures !exited ==>
      forall y :: 0 <= y < m3.weights.Length() ==>
        m3.weights.grad[y] == old(m.weights.grad[y]) + old(m2.weights.grad[y])
    ensures !exited ==>
      forall j :: 0 <= j < m3.outputs ==>
        m3.biases.grad[j] == old(m.biases.grad[j]) + old(m2.biases.grad[j])
  {
    if m == null || m2 == null || m3 == null {
      return true;
    }
    assert m.biases.grad in m.Repr() && m2.biases.grad in m2.Repr() && m3.weights.grad in m3.Repr();
    Sum1D(m.weights.grad, m2.weights.grad, m3.weights.grad, m.inputs * m.outputs);
    Sum1D(m.biases.grad, m2.biases.grad, m3.biases.grad, m.outputs);
    return false;
  }

  /** One batch-normalised layer: gamma and beta buffers of vector_dim
      entries. */
  class BnLayer {
    const vectorDim: nat
    const gamma: ParamBuffer
    const beta: ParamBuffer

    ghost function Repr(): set<object>
    {
      gamma.Repr() + beta.Repr()
    }

    ghost predicate Valid()
    {
      gamma.Valid() && beta.Valid() && gamma.Repr() !! beta.Repr() &&
      gamma.Length() == vectorDim && beta.Length() == vectorDim
    }

    constructor (vectorDim: nat, gamma: ParamBuffer, beta: ParamBuffer)
      requires gamma.Valid() && beta.Valid() && gamma.Repr() !! beta.Repr()
      requires gamma.Length() == vectorDim && beta.Length() == vectorDim
      ensures Valid()
      ensures this.vectorDim == vectorDim && this.gamma == gamma && this.beta == beta
    {
      this.vectorDim := vectorDim;
      this.gamma := gamma;
      this.beta := beta;
    }

    /** `update_batch_normalized_layer_nesterov_bmodel` / `_adam_bmodel`:
        gamma[j] then beta[j], stepped with batch size 1 whatever
        mini_batch_size the caller passes. */
    method Update(rule: Rule, miniBatchSize: int)
      requires Valid()
      modifies Repr()
      ensures forall j :: 0 <= j < vectorDim ==>
        gamma.CellAt(j) == Act(Optimize(rule, 1), old(gamma.CellAt(j))) &&
        beta.CellAt(j) == Act(Optimize(rule, 1), old(beta.CellAt(j)))
    {
      var a := Optimize(rule, 1);
      var j := 0;
      while j < vectorDim
        invariant 0 <= j <= vectorDim
        invariant forall j' :: 0 <= j' < vectorDim ==>
          gamma.CellAt(j') == if j' < j then Act(a, old(gamma.CellAt(j'))) else old(gamma.CellAt(j'))
        invariant forall j' :: 0 <= j' < vectorDim ==>
          beta.CellAt(j') == if j' < j then Act(a, old(beta.CellAt(j'))) else old(beta.CellAt(j'))
      {
        gamma.ApplyAt(j, a);
        beta.ApplyAt(j, a);
        j := j + 1;
      }
    }
  }
}
