/** Forward and backward convolution of one filter over a
    channels x rows x cols input held in a flat buffer
    (llab/gpu/convolutional.c). */
module Convolution {
  import opened Tensor

  /** The dimensions of one convolution call. */
  datatype ConvShape = ConvShape(channels: nat, inRows: nat, inCols: nat,
                                 kRows: nat, kCols: nat, stride: nat, padding: nat)
  {
    /** The calls the model admits: a positive stride and a kernel that fits
        in the input.  Nothing in the C code checks it.  A zero stride divides
        by zero at lines 24-25.  A kernel larger than the input makes C's
        truncating `(in-k)/stride` either -1 or less, so the loops run zero
        times, or 0 when stride exceeds k-in, so one window position is read
        whose window reaches past the input's rows or columns. */
    predicate Valid() { stride >= 1 && kRows <= inRows && kCols <= inCols }

    function OutRows(): nat requires Valid() { OutSize(inRows, kRows, stride, padding) }
    function OutCols(): nat requires Valid() { OutSize(inCols, kCols, stride, padding) }
    function InputLen(): nat { channels * inRows * inCols }
    function KernelLen(): nat { channels * kRows * kCols }
    function OutputLen(): nat requires Valid() { OutRows() * OutCols() }

    /** Output cell (oi, oj) is outside the padding ring. */
    predicate InteriorCell(oi: int, oj: int)
      requires Valid()
    {
      padding <= oi < OutRows() - padding && padding <= oj < OutCols() - padding
    }
  }

  /** Kernel cell (c, i, j). */
  function KernelIndex(g: ConvShape, c: int, i: int, j: int): int
  {
    c * g.kRows * g.kCols + i * g.kCols + j
  }

  /** The input cell multiplied by kernel cell (c, i, j) for output cell
      (oi, oj): the kernel window starts at row (oi - padding) * stride and
      column (oj - padding) * stride of channel c. */
  function InputIndex(g: ConvShape, c: int, i: int, j: int, oi: int, oj: int): int
  {
    c * g.inRows * g.inCols + i * g.inCols + j
      + (oj - g.padding) * g.stride + (oi - g.padding) * g.stride * g.inCols
  }

  /** Every index that the loops of lines 26-35 and 69-79 compute is in range:
      the kernel index in [0, channels*kernel_i*kernel_j), the input index in
      [0, channels*input_i*input_j) and the output index in
      [0, output_i*output_j), for every interior output cell. */
  lemma IndicesInRange(g: ConvShape, c: int, i: int, j: int, oi: int, oj: int)
    requires g.Valid() && g.InteriorCell(oi, oj)
    requires 0 <= c < g.channels && 0 <= i < g.kRows && 0 <= j < g.kCols
    ensures 0 <= KernelIndex(g, c, i, j) < g.KernelLen()
    ensures 0 <= InputIndex(g, c, i, j, oi, oj) < g.InputLen()
    ensures 0 <= oi * g.OutCols() + oj < g.OutputLen()
  {
    Flat3(c, i, j, g.channels, g.kRows, g.kCols);
    InputIndexInRange(g, c, i, j, oi, oj);
    InteriorCell(g.OutRows(), g.OutCols(), g.padding, oi, oj);
  }

  /** Kernel row k of the window of output row t lies inside the input:
      0 <= k + (t - padding) * stride < input. */
  lemma WindowFits(k: int, t: int, input: nat, kernel: nat, stride: nat, padding: nat)
    requires kernel <= input && stride >= 1 && 0 <= k < kernel
    requires padding <= t < OutSize(input, kernel, stride, padding) - padding
    ensures 0 <= k + (t - padding) * stride < input
  {
    var r := OutSize(input, kernel, stride, padding);
    MulMono(0, t - padding, stride);
    MulMono(t - padding, r - 2 * padding - 1, stride);
  }

  lemma InputIndexInRange(g: ConvShape, c: int, i: int, j: int, oi: int, oj: int)
    requires g.Valid() && g.InteriorCell(oi, oj)
    requires 0 <= c < g.channels && 0 <= i < g.kRows && 0 <= j < g.kCols
    ensures 0 <= InputIndex(g, c, i, j, oi, oj) < g.InputLen()
  {
    var s, p := g.stride, g.padding;
    WindowFits(i, oi, g.inRows, g.kRows, s, p);
    WindowFits(j, oj, g.inCols, g.kCols, s, p);
    var row, col := i + (oi - p) * s, j + (oj - p) * s;
    assert row * g.inCols == i * g.inCols + (oi - p) * s * g.inCols;
    Flat3(c, row, col, g.channels, g.inRows, g.inCols);
  }

  /** One multiply-accumulate of the convolution: kernel cell k, input cell x,
      output cell o. */
  datatype Tap = Tap(k: int, x: int, o: int)

  /** The taps of kernel row i of channel c for output cell (oi, oj),
      columns 0 .. n-1 in loop order. */
  function RowTaps(g: ConvShape, oi: int, oj: int, c: int, i: int, n: nat): (r: seq<Tap>)
    requires g.Valid() && g.InteriorCell(oi, oj)
    requires 0 <= c < g.channels && 0 <= i < g.kRows && n <= g.kCols
    ensures |r| == n
  {
    if n == 0 then []
    else
      RowTaps(g, oi, oj, c, i, n - 1)
        + [Tap(KernelIndex(g, c, i, n - 1), InputIndex(g, c, i, n - 1, oi, oj), oi * g.OutCols() + oj)]
  }

  /** The taps of kernel rows 0 .. n-1 of channel c. */
  function ChannelTaps(g: ConvShape, oi: int, oj: int, c: int, n: nat): (r: seq<Tap>)
    requires g.Valid() && g.InteriorCell(oi, oj)
    requires 0 <= c < g.channels && n <= g.kRows
  {
    if n == 0 then []
    else ChannelTaps(g, oi, oj, c, n - 1) + RowTaps(g, oi, oj, c, n - 1, g.kCols)
  }

  /** The taps of channels 0 .. n-1 for output cell (oi, oj). */
  function CellTaps(g: ConvShape, oi: int, oj: int, n: nat): (r: seq<Tap>)
    requires g.Valid() && g.InteriorCell(oi, oj) && n <= g.channels
  {
    if n == 0 then []
    else CellTaps(g, oi, oj, n - 1) + ChannelTaps(g, oi, oj, n - 1, g.kRows)
  }

  /** The taps of interior cells (oi, padding) .. (oi, n-1) of output row oi. */
  function LineTaps(g: ConvShape, oi: int, n: int): (r: seq<Tap>)
    requires g.Valid() && g.padding <= oi < g.OutRows() - g.padding
    requires g.padding <= n <= g.OutCols() - g.padding
    decreases n
  {
    if n == g.padding then []
    else LineTaps(g, oi, n - 1) + CellTaps(g, oi, n - 1, g.channels)
  }

  /** The taps of all interior cells of output rows padding .. n-1, in the
      order the loops visit them. */
  function GridTaps(g: ConvShape, n: int): (r: seq<Tap>)
    requires g.Valid() && g.padding <= n <= g.OutRows() - g.padding
    decreases n
  {
    if n == g.padding then []
    else GridTaps(g, n - 1) + LineTaps(g, n - 1, g.OutCols() - g.padding)
  }

  /** Sum of kernel[k] * input[x] over the taps. */
  function TapSum(kernel: seq<real>, input: seq<real>, taps: seq<Tap>): real
    decreases |taps|
  {
    if taps == [] then 0.0
    else
      var t := taps[|taps| - 1];
      TapSum(kernel, input, taps[..|taps| - 1]) + Product(kernel, input, t)
  }

  /** What one tap contributes to its output cell: kernel[k] * input[x]
      (line 31).  A tap that addresses no cell (the loops never make one)
      contributes nothing. */
  function Product(kernel: seq<real>, input: seq<real>, t: Tap): real
  {
    if 0 <= t.k < |kernel| && 0 <= t.x < |input| then kernel[t.k] * input[t.x] else 0.0
  }

  lemma {:induction false} TapSumConcat(kernel: seq<real>, input: seq<real>, a: seq<Tap>, b: seq<Tap>)
    ensures TapSum(kernel, input, a + b) == TapSum(kernel, input, a) + TapSum(kernel, input, b)
    decreases |b|
  {
    if b == [] {
      assert a + b == a;
    } else {
      var b' := b[..|b| - 1];
      assert (a + b)[..|a + b| - 1] == a + b';
      TapSumConcat(kernel, input, a, b');
    }
  }

  /** The value accumulated into interior output cell (oi, oj): the sum over
      channels and kernel cells of kernel * input at the strided offset,
      plus the bias. */
  function ConvCell(g: ConvShape, input: seq<real>, kernel: seq<real>, bias: real, oi: int, oj: int): real
    requires g.Valid() && g.InteriorCell(oi, oj)
    requires |input| == g.InputLen() && |kernel| == g.KernelLen()
  {
    TapSum(kernel, input, CellTaps(g, oi, oj, g.channels)) + bias
  }

  /** The output buffer after convolutional_feed_forward: each interior cell
      grows by its ConvCell value, padding cells keep their old value. */
  function ConvForward(g: ConvShape, input: seq<real>, kernel: seq<real>, bias: real, out: seq<real>): (r: seq<real>)
    requires g.Valid() && |input| == g.InputLen() && |kernel| == g.KernelLen()
    requires |out| == g.OutputLen()
    ensures |r| == |out|
  {
    var w := g.OutCols();
    seq(|out|, idx requires 0 <= idx < |out| =>
      if Interior(g.OutRows(), w, g.padding, idx)
      then out[idx] + ConvCell(g, input, kernel, bias, idx / w, idx % w)
      else out[idx])
  }

  /** Interior cell (oi, oj) of the forward result holds its old value plus
      the sum of kernel * input over its window plus the bias. */
  lemma ConvForwardInterior(g: ConvShape, input: seq<real>, kernel: seq<real>, bias: real, out: seq<real>, oi: int, oj: int)
    requires g.Valid() && |input| == g.InputLen() && |kernel| == g.KernelLen()
    requires |out| == g.OutputLen() && g.InteriorCell(oi, oj)
    ensures 0 <= oi * g.OutCols() + oj < |out|
    ensures ConvForward(g, input, kernel, bias, out)[oi * g.OutCols() + oj]
         == out[oi * g.OutCols() + oj] + ConvCell(g, input, kernel, bias, oi, oj)
  {
    InteriorCell(g.OutRows(), g.OutCols(), g.padding, oi, oj);
  }

  /** The padding ring of the output is left as it was. */
  lemma ConvForwardPadding(g: ConvShape, input: seq<real>, kernel: seq<real>, bias: real, out: seq<real>, oi: int, oj: int)
    requires g.Valid() && |input| == g.InputLen() && |kernel| == g.KernelLen()
    requires |out| == g.OutputLen()
    requires 0 <= oi < g.OutRows() && 0 <= oj < g.OutCols() && !g.InteriorCell(oi, oj)
    ensures 0 <= oi * g.OutCols() + oj < |out|
    ensures ConvForward(g, input, kernel, bias, out)[oi * g.OutCols() + oj] == out[oi * g.OutCols() + oj]
  {
    GridIndex(oi, oj, g.OutRows(), g.OutCols());
  }

  /** With one channel, a 1x1 kernel holding 1.0, zero bias, stride 1 and no
      padding, the forward pass adds the input to a zeroed output: the output
      equals the input. */
  lemma ConvIdentity(rows: nat, cols: nat, input: seq<real>, out: seq<real>)
    requires rows >= 1 && cols >= 1 && |input| == rows * cols && |out| == rows * cols
    requires forall idx :: 0 <= idx < |out| ==> out[idx] == 0.0
    ensures ConvForward(ConvShape(1, rows, cols, 1, 1, 1, 0), input, [1.0], 0.0, out) == input
  {
    var g := ConvShape(1, rows, cols, 1, 1, 1, 0);
    assert g.OutRows() == rows && g.OutCols() == cols;
    var r := ConvForward(g, input, [1.0], 0.0, out);
    forall idx | 0 <= idx < |out|
      ensures r[idx] == input[idx]
    {
      var oi, oj := idx / cols, idx % cols;
      assert idx == oi * cols + oj;
      IdentityCell(rows, cols, input, oi, oj);
      ConvForwardInterior(g, input, [1.0], 0.0, out, oi, oj);
    }
  }

  /** The single tap of the identity convolution at cell (oi, oj) reads the
      input cell of the same flat index. */
  lemma IdentityCell(rows: nat, cols: nat, input: seq<real>, oi: int, oj: int)
    requires rows >= 1 && cols >= 1 && |input| == rows * cols
    requires 0 <= oi < rows && 0 <= oj < cols
    ensures ConvShape(1, rows, cols, 1, 1, 1, 0).InteriorCell(oi, oj)
    ensures 0 <= oi * cols + oj < |input|
    ensures ConvCell(ConvShape(1, rows, cols, 1, 1, 1, 0), input, [1.0], 0.0, oi, oj) == input[oi * cols + oj]
  {
    var g := ConvShape(1, rows, cols, 1, 1, 1, 0);
    assert g.OutRows() == rows && g.OutCols() == cols;
    GridIndex(oi, oj, rows, cols);
    var idx := oi * cols + oj;
    assert KernelIndex(g, 0, 0, 0) == 0;
    assert InputIndex(g, 0, 0, 0, oi, oj) == idx;
    var t := Tap(0, idx, idx);
    assert RowTaps(g, oi, oj, 0, 0, 1) == [t];
    assert ChannelTaps(g, oi, oj, 0, 1) == [t];
    assert CellTaps(g, oi, oj, 1) == [t];
    assert Product([1.0], input, t) == input[idx];
    assert TapSum([1.0], input, [t]) == Product([1.0], input, t) by {
      assert [t][..0] == [];
    }
  }

  /** One more column of kernel row i adds one product to the row's sum. */
  lemma RowTapsStep(g: ConvShape, kernel: seq<real>, input: seq<real>, oi: int, oj: int, c: int, i: int, j: nat)
    requires g.Valid() && g.InteriorCell(oi, oj)
    requires |input| == g.InputLen() && |kernel| == g.KernelLen()
    requires 0 <= c < g.channels && 0 <= i < g.kRows && j < g.kCols
    ensures TapSum(kernel, input, RowTaps(g, oi, oj, c, i, j + 1))
         == TapSum(kernel, input, RowTaps(g, oi, oj, c, i, j))
            + Product(kernel, input, Tap(KernelIndex(g, c, i, j), InputIndex(g, c, i, j, oi, oj), oi * g.OutCols() + oj))
  {
    var r := RowTaps(g, oi, oj, c, i, j + 1);
    assert r[..j] == RowTaps(g, oi, oj, c, i, j);
  }

  /** The body of the innermost loop, line 31, for one tap. */
  method AccumulateTap(input: array<real>, kernel: array<real>, output: array<real>, t: Tap)
    requires TapIn(t, kernel.Length, input.Length, output.Length)
    requires output != input && output != kernel
    modifies output
    ensures output[..] == old(output[..])[t.o := old(output[t.o]) + Product(kernel[..], input[..], t)]
  {
    output[t.o] := output[t.o] + kernel[t.k] * input[t.x];
  }

  /** The innermost loop of lines 30-32: output cell (oi, oj) grows by
      kernel * input along kernel row i of channel c. */
  method AccumulateKernelRow(input: array<real>, kernel: array<real>, g: ConvShape,
                             output: array<real>, oi: int, oj: int, c: int, i: int)
    requires g.Valid() && g.InteriorCell(oi, oj)
    requires 0 <= c < g.channels && 0 <= i < g.kRows
    requires input.Length == g.InputLen() && kernel.Length == g.KernelLen()
    requires output.Length == g.OutputLen()
    requires output != input && output != kernel
    modifies output
    ensures 0 <= oi * g.OutCols() + oj < output.Length
    ensures output[oi * g.OutCols() + oj]
         == old(output[oi * g.OutCols() + oj]) + TapSum(kernel[..], input[..], RowTaps(g, oi, oj, c, i, g.kCols))
    ensures forall idx :: 0 <= idx < output.Length && idx != oi * g.OutCols() + oj ==> output[idx] == old(output[idx])
  {
    InteriorCell(g.OutRows(), g.OutCols(), g.padding, oi, oj);
    var cell := oi * g.OutCols() + oj;
    ghost var start := output[cell];
    ghost var K, X := kernel[..], input[..];
    var j := 0;
    while j < g.kCols
      invariant 0 <= j <= g.kCols
      invariant forall idx :: 0 <= idx < output.Length && idx != cell ==> output[idx] == old(output[idx])
      invariant output[cell] == start + TapSum(K, X, RowTaps(g, oi, oj, c, i, j))
    {
      IndicesInRange(g, c, i, j, oi, oj);
      var t := Tap(KernelIndex(g, c, i, j), InputIndex(g, c, i, j, oi, oj), cell);
      AccumulateTap(input, kernel, output, t);
      assert output[cell] == start + TapSum(K, X, RowTaps(g, oi, oj, c, i, j + 1)) by {
        RowTapsStep(g, K, X, oi, oj, c, i, j);
      }
      j := j + 1;
    }
  }

  /** The loop over kernel rows (lines 29-33) for channel c of output
      cell (oi, oj). */
  method AccumulateChannel(input: array<real>, kernel: array<real>, g: ConvShape,
                           output: array<real>, oi: int, oj: int, c: int)
    requires g.Valid() && g.InteriorCell(oi, oj) && 0 <= c < g.channels
    requires input.Length == g.InputLen() && kernel.Length == g.KernelLen()
    requires output.Length == g.OutputLen()
    requires output != input && output != kernel
    modifies output
    ensures 0 <= oi * g.OutCols() + oj < output.Length
    ensures output[oi * g.OutCols() + oj]
         == old(output[oi * g.OutCols() + oj]) + TapSum(kernel[..], input[..], ChannelTaps(g, oi, oj, c, g.kRows))
    ensures forall idx :: 0 <= idx < output.Length && idx != oi * g.OutCols() + oj ==> output[idx] == old(output[idx])
  {
    InteriorCell(g.OutRows(), g.OutCols(), g.padding, oi, oj);
    var cell := oi * g.OutCols() + oj;
    ghost var start := output[cell];
    ghost var K, X := kernel[..], input[..];
    var i := 0;
    while i < g.kRows
      invariant 0 <= i <= g.kRows
      invariant forall idx :: 0 <= idx < output.Length && idx != cell ==> output[idx] == old(output[idx])
      invariant output[cell] == start + TapSum(K, X, ChannelTaps(g, oi, oj, c, i))
    {
      ghost var done, row := ChannelTaps(g, oi, oj, c, i), RowTaps(g, oi, oj, c, i, g.kCols);
      AccumulateKernelRow(input, kernel, g, output, oi, oj, c, i);
      assert output[cell] == start + TapSum(K, X, done + row) by {
        TapSumConcat(K, X, done, row);
      }
      i := i + 1;
    }
  }

  /** The three inner loops of lines 28-34: output cell (oi, oj) grows by
      kernel * input summed over every channel and kernel cell; no other
      output cell changes. */
  method AccumulateCell(input: array<real>, kernel: array<real>, g: ConvShape,
                        output: array<real>, oi: int, oj: int)
    requires g.Valid() && g.InteriorCell(oi, oj)
    requires input.Length == g.InputLen() && kernel.Length == g.KernelLen()
    requires output.Length == g.OutputLen()
    requires output != input && output != kernel
    modifies output
    ensures 0 <= oi * g.OutCols() + oj < output.Length
    ensures output[oi * g.OutCols() + oj]
         == old(output[oi * g.OutCols() + oj]) + TapSum(kernel[..], input[..], CellTaps(g, oi, oj, g.channels))
    ensures forall idx :: 0 <= idx < output.Length && idx != oi * g.OutCols() + oj ==> output[idx] == old(output[idx])
  {
    InteriorCell(g.OutRows(), g.OutCols(), g.padding, oi, oj);
    var cell := oi * g.OutCols() + oj;
    ghost var start := output[cell];
    ghost var K, X := kernel[..], input[..];
    var c := 0;
    while c < g.channels
      invariant 0 <= c <= g.channels
      invariant forall idx :: 0 <= idx < output.Length && idx != cell ==> output[idx] == old(output[idx])
      invariant output[cell] == start + TapSum(K, X, CellTaps(g, oi, oj, c))
    {
      ghost var done, channel := CellTaps(g, oi, oj, c), ChannelTaps(g, oi, oj, c, g.kRows);
      AccumulateChannel(input, kernel, g, output, oi, oj, c);
      assert output[cell] == start + TapSum(K, X, done + channel) by {
        TapSumConcat(K, X, done, channel);
      }
      c := c + 1;
    }
  }

  /** convolutional_feed_forward (lines 22-38): every interior output cell
      grows by its ConvCell value; the padding ring is not touched. */
  /** The body of the loops of lines 24-38 at output cell (oi, oj): the
      channel sums plus the bias are added to the cell, which then holds its
      final value. */
  method ForwardCell(input: array<real>, kernel: array<real>, g: ConvShape, bias: real, output: array<real>,
                     oi: int, oj: int, ghost before: seq<real>, ghost target: seq<real>)
    requires g.Valid() && g.InteriorCell(oi, oj) && input.Length == g.InputLen() && kernel.Length == g.KernelLen()
    requires output.Length == g.OutputLen() && output != input && output != kernel
    requires |before| == g.OutputLen() && target == ConvForward(g, input[..], kernel[..], bias, before)
    requires DoneUpTo(output[..], before, target, oi * g.OutCols() + oj)
    modifies output
    ensures DoneUpTo(output[..], before, target, oi * g.OutCols() + oj + 1)
  {
    ConvForwardInterior(g, input[..], kernel[..], bias, before, oi, oj);
    AccumulateCell(input, kernel, g, output, oi, oj);
    output[oi * g.OutCols() + oj] := output[oi * g.OutCols() + oj] + bias;
  }

  method ConvolutionalFeedForward(input: array<real>, kernel: array<real>, g: ConvShape,
                                  bias: real, output: array<real>)
    requires g.Valid() && input.Length == g.InputLen() && kernel.Length == g.KernelLen()
    requires output.Length == g.OutputLen()
    requires output != input && output != kernel
    modifies output
    ensures output[..] == ConvForward(g, input[..], kernel[..], bias, old(output[..]))
  {
    ghost var before := output[..];
    ghost var target := ConvForward(g, input[..], kernel[..], bias, before);
    var outputI, outputJ := g.OutRows(), g.OutCols();
    var p := g.padding;
    forall idx | 0 <= idx < output.Length && idx < p * outputJ + p
      ensures target[idx] == before[idx]
    {
      PaddingBefore(outputI, outputJ, p, idx);
    }
    var oi := p;
    while oi < outputI - p
      invariant p <= oi <= outputI - p
      invariant DoneUpTo(output[..], before, target, oi * outputJ + p)
    {
      var oj := p;
      while oj < outputJ - p
        invariant p <= oj <= outputJ - p
        invariant DoneUpTo(output[..], before, target, oi * outputJ + oj)
      {
        ForwardCell(input, kernel, g, bias, output, oi, oj, before, target);
        oj := oj + 1;
      }
      forall idx | 0 <= idx < output.Length && oi * outputJ + (outputJ - p) <= idx < (oi + 1) * outputJ + p
        ensures target[idx] == before[idx]
      {
        PaddingBetween(outputI, outputJ, p, oi, idx);
      }
      oi := oi + 1;
    }
    forall idx | 0 <= idx < output.Length && (outputI - p) * outputJ + p <= idx
      ensures target[idx] == before[idx]
    {
      PaddingAfter(outputI, outputJ, p, idx);
    }
  }

  // ----- back propagation (lines 65-82) -----

  /** Tap t addresses cells inside a kernel of kLen, an input of xLen and an
      output of oLen elements. */
  predicate TapIn(t: Tap, kLen: int, xLen: int, oLen: int)
  {
    0 <= t.k < kLen && 0 <= t.x < xLen && 0 <= t.o < oLen
  }

  /** What one tap adds to kernel_error[k]: output_error[o] * input[x]. */
  function KernelDelta(err: seq<real>, input: seq<real>, t: Tap): real
    requires 0 <= t.o < |err| && 0 <= t.x < |input|
  {
    err[t.o] * input[t.x]
  }

  /** What one tap adds to input_error[x]: kernel[k] * output_error[o]. */
  function InputDelta(kernel: seq<real>, err: seq<real>, t: Tap): real
    requires 0 <= t.k < |kernel| && 0 <= t.o < |err|
  {
    kernel[t.k] * err[t.o]
  }

  /** kernel_error after the taps, in order: each tap adds
      output_error[o] * input[x] to kernel_error[k] (line 74).  A tap that
      addresses no cell (the loops never make one) changes nothing. */
  function ScatterKernel(err: seq<real>, input: seq<real>, taps: seq<Tap>, ke: seq<real>): (r: seq<real>)
    ensures |r| == |ke|
    decreases |taps|
  {
    if taps == [] then ke
    else
      var t := taps[|taps| - 1];
      var prev := ScatterKernel(err, input, taps[..|taps| - 1], ke);
      if TapIn(t, |ke|, |input|, |err|) then prev[t.k := prev[t.k] + KernelDelta(err, input, t)] else prev
  }

  /** input_error after the taps, in order: each tap adds
      kernel[k] * output_error[o] to input_error[x] (line 75). */
  function ScatterInput(kernel: seq<real>, err: seq<real>, taps: seq<Tap>, xe: seq<real>): (r: seq<real>)
    ensures |r| == |xe|
    decreases |taps|
  {
    if taps == [] then xe
    else
      var t := taps[|taps| - 1];
      var prev := ScatterInput(kernel, err, taps[..|taps| - 1], xe);
      if TapIn(t, |kernel|, |xe|, |err|) then prev[t.x := prev[t.x] + InputDelta(kernel, err, t)] else prev
  }

  /** Scattering a + b into kernel_error is scattering a, then b. */
  lemma {:induction false} ScatterKernelConcat(err: seq<real>, input: seq<real>, a: seq<Tap>, b: seq<Tap>, ke: seq<real>)
    ensures ScatterKernel(err, input, a + b, ke) == ScatterKernel(err, input, b, ScatterKernel(err, input, a, ke))
    decreases |b|
  {
    if b == [] {
      assert a + b == a;
    } else {
      var b' := b[..|b| - 1];
      assert (a + b)[..|a + b| - 1] == a + b';
      assert (a + b)[|a + b| - 1] == b[|b| - 1];
      ScatterKernelConcat(err, input, a, b', ke);
    }
  }

  /** Scattering a + b into input_error is scattering a, then b. */
  lemma {:induction false} ScatterInputConcat(kernel: seq<real>, err: seq<real>, a: seq<Tap>, b: seq<Tap>, xe: seq<real>)
    ensures ScatterInput(kernel, err, a + b, xe) == ScatterInput(kernel, err, b, ScatterInput(kernel, err, a, xe))
    decreases |b|
  {
    if b == [] {
      assert a + b == a;
    } else {
      var b' := b[..|b| - 1];
      assert (a + b)[..|a + b| - 1] == a + b';
      assert (a + b)[|a + b| - 1] == b[|b| - 1];
      ScatterInputConcat(kernel, err, a, b', xe);
    }
  }

  /** The sum of output_error[o] * input[x] over the taps that hit kernel
      cell k: the gradient of the loss with respect to that weight. */
  function KernelGain(err: seq<real>, input: seq<real>, taps: seq<Tap>, k: int): real
    decreases |taps|
  {
    if taps == [] then 0.0
    else
      var t := taps[|taps| - 1];
      KernelGain(err, input, taps[..|taps| - 1], k) + (if t.k == k && 0 <= t.o < |err| && 0 <= t.x < |input| then KernelDelta(err, input, t) else 0.0)
  }

  /** The sum of kernel[k] * output_error[o] over the taps that read input
      cell x: the error propagated back to that input. */
  function InputGain(kernel: seq<real>, err: seq<real>, taps: seq<Tap>, x: int): real
    decreases |taps|
  {
    if taps == [] then 0.0
    else
      var t := taps[|taps| - 1];
      InputGain(kernel, err, taps[..|taps| - 1], x) + (if t.x == x && 0 <= t.k < |kernel| && 0 <= t.o < |err| then InputDelta(kernel, err, t) else 0.0)
  }

  /** Each kernel_error cell ends up grown by exactly its gain, whatever the
      order of the taps. */
  lemma {:induction false} ScatterKernelAt(err: seq<real>, input: seq<real>, taps: seq<Tap>, ke: seq<real>, k: int)
    requires 0 <= k < |ke|
    ensures ScatterKernel(err, input, taps, ke)[k] == ke[k] + KernelGain(err, input, taps, k)
    decreases |taps|
  {
    if taps != [] {
      ScatterKernelAt(err, input, taps[..|taps| - 1], ke, k);
    }
  }

  /** Each input_error cell ends up grown by exactly its gain. */
  lemma {:induction false} ScatterInputAt(kernel: seq<real>, err: seq<real>, taps: seq<Tap>, xe: seq<real>, x: int)
    requires 0 <= x < |xe|
    ensures ScatterInput(kernel, err, taps, xe)[x] == xe[x] + InputGain(kernel, err, taps, x)
    decreases |taps|
  {
    if taps != [] {
      ScatterInputAt(kernel, err, taps[..|taps| - 1], xe, x);
    }
  }

  /** A zero output error contributes nothing to any gain. */
  lemma {:induction false} ZeroErrorNoGain(kernel: seq<real>, err: seq<real>, input: seq<real>, taps: seq<Tap>, c: int)
    requires forall o :: 0 <= o < |err| ==> err[o] == 0.0
    ensures KernelGain(err, input, taps, c) == 0.0 && InputGain(kernel, err, taps, c) == 0.0
    decreases |taps|
  {
    if taps != [] {
      ZeroErrorNoGain(kernel, err, input, taps[..|taps| - 1], c);
    }
  }

  /** The sum of input[x] over the taps that use kernel cell k: how much
      the tap sum moves per unit change of kernel[k]. */
  function KernelWeight(input: seq<real>, taps: seq<Tap>, k: int): real
    decreases |taps|
  {
    if taps == [] then 0.0
    else
      var t := taps[|taps| - 1];
      KernelWeight(input, taps[..|taps| - 1], k) + (if t.k == k && 0 <= t.x < |input| then input[t.x] else 0.0)
  }

  /** The forward tap sum is linear in each kernel cell: raising kernel[k]
      by d raises it by d times the weight of k. */
  lemma {:induction false} TapSumShift(kernel: seq<real>, input: seq<real>, taps: seq<Tap>, k: int, d: real)
    requires 0 <= k < |kernel|
    ensures TapSum(kernel[k := kernel[k] + d], input, taps) == TapSum(kernel, input, taps) + d * KernelWeight(input, taps, k)
    decreases |taps|
  {
    if taps != [] {
      var t, rest := taps[|taps| - 1], taps[..|taps| - 1];
      TapSumShift(kernel, input, rest, k, d);
      var w := if t.k == k && 0 <= t.x < |input| then input[t.x] else 0.0;
      assert Product(kernel[k := kernel[k] + d], input, t) == Product(kernel, input, t) + d * w;
      assert d * KernelWeight(input, taps, k) == d * KernelWeight(input, rest, k) + d * w;
    }
  }

  /** Every tap in the list feeds output cell o. */
  predicate AllFeed(taps: seq<Tap>, o: int)
  {
    forall m :: 0 <= m < |taps| ==> taps[m].o == o
  }

  /** For the taps of one output cell o, the kernel gain is the output error
      of o times the weight of k: back propagation applies the chain rule
      to the forward sum of lines 30-32. */
  lemma {:induction false} KernelGainChain(err: seq<real>, input: seq<real>, taps: seq<Tap>, o: int, k: int)
    requires 0 <= o < |err| && AllFeed(taps, o)
    ensures KernelGain(err, input, taps, k) == err[o] * KernelWeight(input, taps, k)
    decreases |taps|
  {
    if taps != [] {
      var t, rest := taps[|taps| - 1], taps[..|taps| - 1];
      assert AllFeed(rest, o) by {
        forall m | 0 <= m < |rest| ensures rest[m].o == o {
          assert rest[m] == taps[m];
        }
      }
      KernelGainChain(err, input, rest, o, k);
      assert t.o == o;
      var w := if t.k == k && 0 <= t.x < |input| then input[t.x] else 0.0;
      assert (if t.k == k && 0 <= t.o < |err| && 0 <= t.x < |input| then KernelDelta(err, input, t) else 0.0) == err[o] * w;
      assert err[o] * KernelWeight(input, taps, k) == err[o] * KernelWeight(input, rest, k) + err[o] * w;
    }
  }

  /** Every tap of output cell (oi, oj), channels 0 .. n-1, feeds that cell. */
  lemma {:induction false} CellTapsFeed(g: ConvShape, oi: int, oj: int, n: nat, o: int)
    requires g.Valid() && g.InteriorCell(oi, oj) && n <= g.channels && o == oi * g.OutCols() + oj
    ensures AllFeed(CellTaps(g, oi, oj, n), o)
    decreases n
  {
    if n > 0 {
      CellTapsFeed(g, oi, oj, n - 1, o);
      ChannelTapsFeed(g, oi, oj, n - 1, g.kRows);
    }
  }

  lemma {:induction false} ChannelTapsFeed(g: ConvShape, oi: int, oj: int, c: int, n: nat)
    requires g.Valid() && g.InteriorCell(oi, oj) && 0 <= c < g.channels && n <= g.kRows
    ensures AllFeed(ChannelTaps(g, oi, oj, c, n), oi * g.OutCols() + oj)
    decreases n
  {
    if n > 0 {
      ChannelTapsFeed(g, oi, oj, c, n - 1);
      RowTapsFeed(g, oi, oj, c, n - 1, g.kCols);
    }
  }

  lemma {:induction false} RowTapsFeed(g: ConvShape, oi: int, oj: int, c: int, i: int, n: nat)
    requires g.Valid() && g.InteriorCell(oi, oj) && 0 <= c < g.channels && 0 <= i < g.kRows && n <= g.kCols
    ensures AllFeed(RowTaps(g, oi, oj, c, i, n), oi * g.OutCols() + oj)
    decreases n
  {
    if n > 0 {
      RowTapsFeed(g, oi, oj, c, i, n - 1);
    }
  }

  /** The sum of output_error over the interior cells (oi, padding) ..
      (oi, n-1) of output row oi. */
  function LineErrorSum(g: ConvShape, err: seq<real>, oi: int, n: int): real
    requires g.Valid() && |err| == g.OutputLen() && g.padding <= oi < g.OutRows() - g.padding
    requires g.padding <= n <= g.OutCols() - g.padding
    decreases n
  {
    if n == g.padding then 0.0
    else
      InteriorCell(g.OutRows(), g.OutCols(), g.padding, oi, n - 1);
      LineErrorSum(g, err, oi, n - 1) + err[oi * g.OutCols() + n - 1]
  }

  /** The sum of output_error over the interior cells of rows padding .. n-1:
      what bias_error grows by (line 79). */
  function InteriorErrorSum(g: ConvShape, err: seq<real>, n: int): real
    requires g.Valid() && |err| == g.OutputLen() && g.padding <= n <= g.OutRows() - g.padding
    decreases n
  {
    if n == g.padding then 0.0
    else InteriorErrorSum(g, err, n - 1) + LineErrorSum(g, err, n - 1, g.OutCols() - g.padding)
  }

  /** One more column of kernel row i appends one tap. */
  lemma RowTapsLast(g: ConvShape, oi: int, oj: int, c: int, i: int, j: nat)
    requires g.Valid() && g.InteriorCell(oi, oj)
    requires 0 <= c < g.channels && 0 <= i < g.kRows && j < g.kCols
    ensures 0 <= KernelIndex(g, c, i, j) < g.KernelLen() && 0 <= InputIndex(g, c, i, j, oi, oj) < g.InputLen()
    ensures 0 <= oi * g.OutCols() + oj < g.OutputLen()
    ensures RowTaps(g, oi, oj, c, i, j + 1)
         == RowTaps(g, oi, oj, c, i, j) + [Tap(KernelIndex(g, c, i, j), InputIndex(g, c, i, j, oi, oj), oi * g.OutCols() + oj)]
  {
    IndicesInRange(g, c, i, j, oi, oj);
  }

  /** Appending one in-range tap updates one cell of kernel_error. */
  lemma ScatterKernelSnoc(err: seq<real>, input: seq<real>, taps: seq<Tap>, t: Tap, ke: seq<real>)
    requires TapIn(t, |ke|, |input|, |err|)
    ensures ScatterKernel(err, input, taps + [t], ke)
         == ScatterKernel(err, input, taps, ke)[t.k := ScatterKernel(err, input, taps, ke)[t.k] + KernelDelta(err, input, t)]
  {
    var s := taps + [t];
    assert s[..|taps|] == taps;
  }

  /** Appending one in-range tap updates one cell of input_error. */
  lemma ScatterInputSnoc(kernel: seq<real>, err: seq<real>, taps: seq<Tap>, t: Tap, xe: seq<real>)
    requires TapIn(t, |kernel|, |xe|, |err|)
    ensures ScatterInput(kernel, err, taps + [t], xe)
         == ScatterInput(kernel, err, taps, xe)[t.x := ScatterInput(kernel, err, taps, xe)[t.x] + InputDelta(kernel, err, t)]
  {
    var s := taps + [t];
    assert s[..|taps|] == taps;
  }

  /** The body of the innermost loop, lines 74-75, for one tap. */
  method ScatterTap(input: array<real>, kernel: array<real>, outputError: array<real>,
                    inputError: array<real>, kernelError: array<real>, t: Tap)
    requires inputError.Length == input.Length && kernelError.Length == kernel.Length
    requires TapIn(t, kernel.Length, input.Length, outputError.Length)
    requires inputError != kernelError
    requires inputError != input && inputError != kernel && inputError != outputError
    requires kernelError != input && kernelError != kernel && kernelError != outputError
    modifies inputError, kernelError
    ensures kernelError[..] == old(kernelError[..])[t.k := old(kernelError[t.k]) + KernelDelta(outputError[..], input[..], t)]
    ensures inputError[..] == old(inputError[..])[t.x := old(inputError[t.x]) + InputDelta(kernel[..], outputError[..], t)]
  {
    kernelError[t.k] := kernelError[t.k] + outputError[t.o] * input[t.x];
    inputError[t.x] := inputError[t.x] + kernel[t.k] * outputError[t.o];
  }

  /** The innermost loop of lines 72-76 for output cell (oi, oj): kernel row
      i of channel c scatters into kernel_error and input_error. */
  method BackPropKernelRow(input: array<real>, kernel: array<real>, g: ConvShape, outputError: array<real>,
                           inputError: array<real>, kernelError: array<real>, oi: int, oj: int, c: int, i: int)
    requires g.Valid() && g.InteriorCell(oi, oj)
    requires 0 <= c < g.channels && 0 <= i < g.kRows
    requires input.Length == g.InputLen() && kernel.Length == g.KernelLen()
    requires outputError.Length == g.OutputLen()
    requires inputError.Length == g.InputLen() && kernelError.Length == g.KernelLen()
    requires inputError != kernelError
    requires inputError != input && inputError != kernel && inputError != outputError
    requires kernelError != input && kernelError != kernel && kernelError != outputError
    modifies inputError, kernelError
    ensures kernelError[..] == ScatterKernel(outputError[..], input[..], RowTaps(g, oi, oj, c, i, g.kCols), old(kernelError[..]))
    ensures inputError[..] == ScatterInput(kernel[..], outputError[..], RowTaps(g, oi, oj, c, i, g.kCols), old(inputError[..]))
  {
    ghost var K, E, X := kernel[..], outputError[..], input[..];
    ghost var ke0, xe0 := kernelError[..], inputError[..];
    InteriorCell(g.OutRows(), g.OutCols(), g.padding, oi, oj);
    var cell := oi * g.OutCols() + oj;
    var j := 0;
    while j < g.kCols
      invariant 0 <= j <= g.kCols
      invariant kernelError[..] == ScatterKernel(E, X, RowTaps(g, oi, oj, c, i, j), ke0)
      invariant inputError[..] == ScatterInput(K, E, RowTaps(g, oi, oj, c, i, j), xe0)
    {
      RowTapsLast(g, oi, oj, c, i, j);
      var kIdx, xIdx := KernelIndex(g, c, i, j), InputIndex(g, c, i, j, oi, oj);
      var t := Tap(kIdx, xIdx, cell);
      ghost var done := RowTaps(g, oi, oj, c, i, j);
      ScatterTap(input, kernel, outputError, inputError, kernelError, t);
      assert kernelError[..] == ScatterKernel(E, X, done + [t], ke0) by {
        ScatterKernelSnoc(E, X, done, t, ke0);
      }
      assert inputError[..] == ScatterInput(K, E, done + [t], xe0) by {
        ScatterInputSnoc(K, E, done, t, xe0);
      }
      j := j + 1;
    }
  }

  /** The loop over kernel rows (lines 71-77) for channel c of output cell
      (oi, oj). */
  method BackPropChannel(input: array<real>, kernel: array<real>, g: ConvShape, outputError: array<real>,
                         inputError: array<real>, kernelError: array<real>, oi: int, oj: int, c: int)
    requires g.Valid() && g.InteriorCell(oi, oj) && 0 <= c < g.channels
    requires input.Length == g.InputLen() && kernel.Length == g.KernelLen()
    requires outputError.Length == g.OutputLen()
    requires inputError.Length == g.InputLen() && kernelError.Length == g.KernelLen()
    requires inputError != kernelError
    requires inputError != input && inputError != kernel && inputError != outputError
    requires kernelError != input && kernelError != kernel && kernelError != outputError
    modifies inputError, kernelError
    ensures kernelError[..] == ScatterKernel(outputError[..], input[..], ChannelTaps(g, oi, oj, c, g.kRows), old(kernelError[..]))
    ensures inputError[..] == ScatterInput(kernel[..], outputError[..], ChannelTaps(g, oi, oj, c, g.kRows), old(inputError[..]))
  {
    ghost var K, E, X := kernel[..], outputError[..], input[..];
    ghost var ke0, xe0 := kernelError[..], inputError[..];
    var i := 0;
    while i < g.kRows
      invariant 0 <= i <= g.kRows
      invariant kernelError[..] == ScatterKernel(E, X, ChannelTaps(g, oi, oj, c, i), ke0)
      invariant inputError[..] == ScatterInput(K, E, ChannelTaps(g, oi, oj, c, i), xe0)
    {
      ghost var done, row := ChannelTaps(g, oi, oj, c, i), RowTaps(g, oi, oj, c, i, g.kCols);
      BackPropKernelRow(input, kernel, g, outputError, inputError, kernelError, oi, oj, c, i);
      assert kernelError[..] == ScatterKernel(E, X, done + row, ke0) by {
        ScatterKernelConcat(E, X, done, row, ke0);
      }
      assert inputError[..] == ScatterInput(K, E, done + row, xe0) by {
        ScatterInputConcat(K, E, done, row, xe0);
      }
      i := i + 1;
    }
  }

  /** The three inner loops of lines 70-78: output cell (oi, oj) scatters
      its error through every channel and kernel cell. */
  method BackPropCell(input: array<real>, kernel: array<real>, g: ConvShape, outputError: array<real>,
                      inputError: array<real>, kernelError: array<real>, oi: int, oj: int)
    requires g.Valid() && g.InteriorCell(oi, oj)
    requires input.Length == g.InputLen() && kernel.Length == g.KernelLen()
    requires outputError.Length == g.OutputLen()
    requires inputError.Length == g.InputLen() && kernelError.Length == g.KernelLen()
    requires inputError != kernelError
    requires inputError != input && inputError != kernel && inputError != outputError
    requires kernelError != input && kernelError != kernel && kernelError != outputError
    modifies inputError, kernelError
    ensures kernelError[..] == ScatterKernel(outputError[..], input[..], CellTaps(g, oi, oj, g.channels), old(kernelError[..]))
    ensures inputError[..] == ScatterInput(kernel[..], outputError[..], CellTaps(g, oi, oj, g.channels), old(inputError[..]))
  {
    ghost var K, E, X := kernel[..], outputError[..], input[..];
    ghost var ke0, xe0 := kernelError[..], inputError[..];
    var c := 0;
    while c < g.channels
      invariant 0 <= c <= g.channels
      invariant kernelError[..] == ScatterKernel(E, X, CellTaps(g, oi, oj, c), ke0)
      invariant inputError[..] == ScatterInput(K, E, CellTaps(g, oi, oj, c), xe0)
    {
      ghost var done, channel := CellTaps(g, oi, oj, c), ChannelTaps(g, oi, oj, c, g.kRows);
      BackPropChannel(input, kernel, g, outputError, inputError, kernelError, oi, oj, c);
      assert kernelError[..] == ScatterKernel(E, X, done + channel, ke0) by {
        ScatterKernelConcat(E, X, done, channel, ke0);
      }
      assert inputError[..] == ScatterInput(K, E, done + channel, xe0) by {
        ScatterInputConcat(K, E, done, channel, xe0);
      }
      c := c + 1;
    }
  }

  /** The loop over the interior cells of output row oi (lines 69-80),
      bias_error included. */
  method BackPropLine(input: array<real>, kernel: array<real>, g: ConvShape, outputError: array<real>,
                      inputError: array<real>, kernelError: array<real>, oi: int, biasError: real)
    returns (newBiasError: real)
    requires g.Valid() && g.padding <= oi < g.OutRows() - g.padding
    requires input.Length == g.InputLen() && kernel.Length == g.KernelLen()
    requires outputError.Length == g.OutputLen()
    requires inputError.Length == g.InputLen() && kernelError.Length == g.KernelLen()
    requires inputError != kernelError
    requires inputError != input && inputError != kernel && inputError != outputError
    requires kernelError != input && kernelError != kernel && kernelError != outputError
    modifies inputError, kernelError
    ensures kernelError[..] == ScatterKernel(outputError[..], input[..], LineTaps(g, oi, g.OutCols() - g.padding), old(kernelError[..]))
    ensures inputError[..] == ScatterInput(kernel[..], outputError[..], LineTaps(g, oi, g.OutCols() - g.padding), old(inputError[..]))
    ensures newBiasError == biasError + LineErrorSum(g, outputError[..], oi, g.OutCols() - g.padding)
  {
    ghost var K, E, X := kernel[..], outputError[..], input[..];
    ghost var ke0, xe0 := kernelError[..], inputError[..];
    var outputJ := g.OutCols();
    var p := g.padding;
    newBiasError := biasError;
    var oj := p;
    while oj < outputJ - p
      invariant p <= oj <= outputJ - p
      invariant kernelError[..] == ScatterKernel(E, X, LineTaps(g, oi, oj), ke0)
      invariant inputError[..] == ScatterInput(K, E, LineTaps(g, oi, oj), xe0)
      invariant newBiasError == biasError + LineErrorSum(g, E, oi, oj)
    {
      ghost var done, cellTaps := LineTaps(g, oi, oj), CellTaps(g, oi, oj, g.channels);
      BackPropCell(input, kernel, g, outputError, inputError, kernelError, oi, oj);
      assert kernelError[..] == ScatterKernel(E, X, done + cellTaps, ke0) by {
        ScatterKernelConcat(E, X, done, cellTaps, ke0);
      }
      assert inputError[..] == ScatterInput(K, E, done + cellTaps, xe0) by {
        ScatterInputConcat(K, E, done, cellTaps, xe0);
      }
      InteriorCell(g.OutRows(), outputJ, p, oi, oj);
      newBiasError := newBiasError + outputError[oi * outputJ + oj];
      oj := oj + 1;
    }
  }

  /** convolutional_back_prop (lines 65-82): for every interior output cell,
      in row-major order, kernel_error and input_error receive the scattered
      products of lines 74-75, and bias_error grows by the cell's error.
      The bias argument of the C function is never read and is omitted. */
  method ConvolutionalBackProp(input: array<real>, kernel: array<real>, g: ConvShape, outputError: array<real>,
                               inputError: array<real>, kernelError: array<real>, biasError: real)
    returns (newBiasError: real)
    requires g.Valid()
    requires input.Length == g.InputLen() && kernel.Length == g.KernelLen()
    requires outputError.Length == g.OutputLen()
    requires inputError.Length == g.InputLen() && kernelError.Length == g.KernelLen()
    requires inputError != kernelError
    requires inputError != input && inputError != kernel && inputError != outputError
    requires kernelError != input && kernelError != kernel && kernelError != outputError
    modifies inputError, kernelError
    ensures kernelError[..] == ScatterKernel(outputError[..], input[..], AllTaps(g), old(kernelError[..]))
    ensures inputError[..] == ScatterInput(kernel[..], outputError[..], AllTaps(g), old(inputError[..]))
    ensures newBiasError == biasError + InteriorErrorSum(g, outputError[..], g.OutRows() - g.padding)
  {
    ghost var K, E, X := kernel[..], outputError[..], input[..];
    ghost var ke0, xe0 := kernelError[..], inputError[..];
    var outputI := g.OutRows();
    var p := g.padding;
    newBiasError := biasError;
    var oi := p;
    while oi < outputI - p
      invariant p <= oi <= outputI - p
      invariant kernelError[..] == ScatterKernel(E, X, GridTaps(g, oi), ke0)
      invariant inputError[..] == ScatterInput(K, E, GridTaps(g, oi), xe0)
      invariant newBiasError == biasError + InteriorErrorSum(g, E, oi)
    {
      ghost var done, line := GridTaps(g, oi), LineTaps(g, oi, g.OutCols() - p);
      newBiasError := BackPropLine(input, kernel, g, outputError, inputError, kernelError, oi, newBiasError);
      assert outputError[..] == E && input[..] == X && kernel[..] == K;
      assert GridTaps(g, oi + 1) == done + line;
      assert kernelError[..] == ScatterKernel(E, X, done + line, ke0) by {
        ScatterKernelConcat(E, X, done, line, ke0);
      }
      assert inputError[..] == ScatterInput(K, E, done + line, xe0) by {
        ScatterInputConcat(K, E, done, line, xe0);
      }
      oi := oi + 1;
    }
  }

  /** Every tap of the whole back propagation, in loop order. */
  function AllTaps(g: ConvShape): seq<Tap>
    requires g.Valid()
  {
    GridTaps(g, g.OutRows() - g.padding)
  }
}
