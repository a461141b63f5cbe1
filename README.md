# llab tensor-buffer arithmetic in Dafny

This project models the flat-buffer arithmetic at the centre of the llab
neural-network library. It covers three C files:

- `llab/gpu/convolutional.c`: forward and backward convolution of one filter
  over a `channels x rows x cols` buffer, and max-pooling and average-pooling
  forward and backward.
- `llab/gpu/normalization.c`: local response normalisation (LRN) at one
  position, batch-norm forward, the gamma/beta part of batch-norm backward,
  and the post-training `batch_normalization_final_mean_variance`.
- `llab/gpu/utils.c`: the element-wise buffer helpers, the dropout mask,
  `ridge_regression`, `itoa`, the Fisher-Yates shuffles, the gradient sums
  across replicas and the L2 and optimiser sweeps.

The C code is imperative, and so is the model:

- Buffers are `array<real>`. A written matrix is an `array2<real>`.
- A row table the routine only reads (`float**` input rows) is a
  `seq<seq<real>>`. The shuffled row table of the final statistics is an
  `array<seq<real>>`.
- Every loop is a `while` loop with its invariants.
- Each method is proved against a specification function on sequences:
  - `ConvForward` and the tap lists `AllTaps`, `ScatterKernel` and
    `ScatterInput` for convolution;
  - `MaxPoolForward`, `AvgPoolForward` and `PoolBack` for pooling;
  - `Shuffled` and `Relabelled` for the shuffles;
  - `Accumulated` for LRN;
  - `ColumnSum`, `SquareDeviation`, `MeanTotal` and `VarianceTotal` for
    batch-norm.

  Lemmas then state what the source promises about those functions:
  - the window maximum and where it is routed back;
  - averages between the window's bounds;
  - error conservation in average-pool backward;
  - permutation of the shuffled rows;
  - digit round trips for `itoa`;
  - the final statistics as an overall mean and a Bessel-corrected variance.

Scalars are `real`. `sqrtf` and `pow` are function-valued parameters
(`sqrt`, `pow`). A C division whose divisor can be zero is modelled with
`FloatDiv`, which yields 0 for a zero divisor. `rand()` becomes a sequence
`draws` of values in `[0, RAND_MAX]`, and `r2()` becomes a sequence of
draws. Each random index is computed exactly as the C code computes it.

The layer sweeps work on one layer:
- A parameter buffer is a `ParamBuffer` holding the parameter, derivative
  and two moment arrays.
- A convolutional layer (`ConvLayer`) holds one buffer per kernel and one for
  the biases.
- `FcLayer` and `BnLayer` play the same role for fully-connected and
  batch-normalised layers.
- The optimiser step (`nesterov_momentum`, `adam_algorithm`) is not part of
  this model. It is the function value inside `Rule`, applied by `Act`.

## Model

| member | source | states |
|---|---|---|
| Tensor.OutSize | llab/gpu/convolutional.c:24-25 | `(in-k)/stride + 1 + 2*padding` leaves at least the padding ring plus one cell; the last window position fits the input and one more would not |
| Tensor.Flat3 | llab/gpu/convolutional.c:31 | the flat index `c*rs*ws + r*ws + col` of an in-range triple lies in `[0, cs*rs*ws)` |
| Tensor.InteriorCell | llab/gpu/convolutional.c:26-27 | an output cell inside the padding ring has flat index `row*w+col` in range, is interior, and decodes back to `(row, col)` |
| Tensor.PaddingBefore | llab/gpu/convolutional.c:26-27 | the cells before the first interior cell are padding cells |
| Tensor.PaddingBetween | llab/gpu/convolutional.c:26-27 | the cells between two interior rows are padding cells |
| Tensor.PaddingAfter | llab/gpu/convolutional.c:26-27 | the cells after the last interior row are padding cells |
| Buffers.Sum1D | llab/gpu/utils.c:463-468 | `output[k]` is the sum of the old `input1[k]` and `input2[k]` below size, also when output aliases an input; the rest is unchanged |
| Buffers.Dot1D | llab/gpu/utils.c:414-419 | `output[k]` is the element-wise product below size; the rest is unchanged |
| Buffers.CopyArray | llab/gpu/utils.c:430-435 | `output[..size]` equals the old `input[..size]`; the rest of output is unchanged; being generic in the element type it also models `copy_char_array` (utils.c:446-451) |
| Buffers.MulValue | llab/gpu/utils.c:480-485 | `output[k]` is `input[k]*value` below dimension; the rest is unchanged |
| Buffers.GetDropoutArray | llab/gpu/utils.c:44-50 | `output[k]` is `mask[k]*input[k]` below size; the rest is unchanged |
| Buffers.SetDropoutMask | llab/gpu/utils.c:60-67 | `mask[k]` becomes 0 exactly where draw k is below the threshold and keeps its value otherwise |
| Buffers.RidgeGrowth | llab/gpu/utils.c:77-79 | ridge regression adds exactly `lambda/n * w` to the derivative, and a zero weight leaves it unchanged |
| Buffers.RidgeIsPenaltyGradient | llab/gpu/utils.c:77-79 | the term `ridge_regression` adds is the gradient of the L2 penalty `lambda/(2n)*w*w`: moving w by h changes the penalty by that term times h plus the penalty of h |
| Itoa.DigitChar | llab/gpu/utils.c:122 | the character of digit d is a decimal digit whose code is `'0' + d` |
| Itoa.DigitsLength | llab/gpu/utils.c:128-132 | the digit string has as many characters as the counting loop counts |
| Itoa.DigitsShape | llab/gpu/utils.c:134-137 | the digits are all decimal, and the first is '0' exactly for 0 (no leading zeros) |
| Itoa.DigitsRoundTrip | llab/gpu/utils.c:134-137 | parsing the written digits gives back n |
| Itoa.DecimalStringCorrect | llab/gpu/utils.c:124-137 | the text starts with '-' exactly for negative i, the rest are digits without a leading zero, 0 is written "0", and parsing it gives back i |
| Itoa.NumDigitsBound | llab/gpu/utils.c:128-132 | a number below `10^k` has at most k digits |
| Itoa.TwelveCharsSuffice | llab/gpu/utils.c:121-139 | for every int except INT_MIN the text and its terminator fit in 12 characters |
| Itoa.CountDigits | llab/gpu/utils.c:128-132 | the `do/while` counting loop advances p by the number of digits |
| Itoa.WriteDigits | llab/gpu/utils.c:134-137 | the backward `do/while` writes exactly the digits of n in their slots and nothing else |
| Itoa.WriteNextDigit | llab/gpu/utils.c:135-136 | one step writes the next lower digit just before the ones already written and divides by 10 |
| Itoa.PutBefore | llab/gpu/utils.c:135 | `*--p = c` prefixes c to the written suffix and touches no other cell |
| Itoa.PendingStart | llab/gpu/utils.c:134-136 | after the first step the last digit is written and `n/10` has one digit fewer to go |
| Itoa.PendingStep | llab/gpu/utils.c:134-137 | each later step keeps the written suffix a suffix of the digits of n |
| Itoa.Itoa | llab/gpu/utils.c:121-139 | b holds the decimal text of i followed by '\0', the cells after it are untouched, and the result is b |
| Shuffle.PickBound | llab/gpu/utils.c:153 | `d / (RAND_MAX/span + 1)` lies in `[0, span)` for every draw d |
| Shuffle.PickIndex | llab/gpu/utils.c:153 | the chosen j lies in `[i, n)` |
| Shuffle.SwapPermutes | llab/gpu/utils.c:154-156 | one swap keeps the multiset of rows |
| Shuffle.ShuffledPermutes | llab/gpu/utils.c:151-157 | after any number of steps and for any draws the table is a permutation of the input |
| Shuffle.ShuffledFrame | llab/gpu/utils.c:151-157 | slots at or beyond n are never moved |
| Shuffle.ShuffledReindex | llab/gpu/utils.c:172-188 | the shuffle moves every table by the same index permutation, so tables shuffled together stay aligned row by row |
| Shuffle.SwapSlots | llab/gpu/utils.c:154-156 | the three assignments swap slots i and j |
| Shuffle.ShuffleStep | llab/gpu/utils.c:153-156 | one loop step takes a table from i steps to i+1 steps |
| Shuffle.ShuffleMatrix | llab/gpu/utils.c:148-161 | the row table becomes the shuffled table; for `n <= 1` it is unchanged; the result is 0; it also models `shuffle_float_matrix` (utils.c:271-284) and `shuffle_int_matrix` (utils.c:319-332), whose bodies are the same |
| Shuffle.ShuffleMatrices | llab/gpu/utils.c:172-188 | both tables are shuffled with the same draws; the result is 0; it also models `shuffle_float_matrices` (utils.c:295-311) and `shuffle_int_matrices` (utils.c:344-360) |
| Shuffle.RowsStep | llab/gpu/utils.c:206-216 | one step shuffles m, m1 and f together |
| Shuffle.LabelsNotPermuted | llab/gpu/utils.c:217-218 | with two rows and a draw picking j = 1, the rows swap but the label vector [0, 1] becomes [1, 1], which is not a permutation |
| Shuffle.CopyDownSlot | llab/gpu/utils.c:217-218 | the label statements copy `v[j]` into `v[i]` and leave `v[j]` |
| Shuffle.RelabelStep | llab/gpu/utils.c:217-218 | one as-written label step |
| Shuffle.ShuffleWithLabels | llab/gpu/utils.c:201-223 | as written: m, m1 and f are shuffled and v only receives the copy-down steps |
| Shuffle.ShuffleWithTwoLabels | llab/gpu/utils.c:237-262 | as written: m, m1 and f are shuffled and v and v2 only receive the copy-down steps |
| Shuffle.ShuffleWithLabelsSwapped | llab/gpu/utils.c:201-223 | corrected: v is shuffled with the rows |
| Shuffle.LabelPairStep | llab/gpu/utils.c:254-257 | corrected: one step swaps both label vectors like the rows |
| Shuffle.ShuffleWithTwoLabelsSwapped | llab/gpu/utils.c:237-262 | corrected: v and v2 are shuffled with the rows |
| Convolution.IndicesInRange | llab/gpu/convolutional.c:31 | for an interior output cell and a kernel cell, the kernel index, the strided input index and the output index are in range, given `stride >= 1` and a kernel no larger than the input |
| Convolution.WindowFits | llab/gpu/convolutional.c:31 | the strided offset `k + (t-padding)*stride` of an interior cell stays inside the input |
| Convolution.InputIndexInRange | llab/gpu/convolutional.c:31 | the input index read at line 31 lies in `[0, channels*input_i*input_j)` |
| Convolution.TapSumConcat | llab/gpu/convolutional.c:28-34 | the sum of products over concatenated tap lists is the sum of the two sums |
| Convolution.ConvForwardInterior | llab/gpu/convolutional.c:26-35 | an interior output cell gains the sum over c, i, j of kernel times input at the strided offset, plus bias |
| Convolution.ConvForwardPadding | llab/gpu/convolutional.c:26-27 | a padding cell of the output keeps its value |
| Convolution.ConvIdentity | llab/gpu/convolutional.c:22-38 | a single-channel 1x1 kernel 1.0 with stride 1, no padding and zero bias adds the input to a zero output |
| Convolution.IdentityCell | llab/gpu/convolutional.c:31 | with the identity kernel, the sum for cell `(oi, oj)` is `input[oi*cols + oj]` |
| Convolution.RowTapsStep | llab/gpu/convolutional.c:30-31 | the j loop adds one product per kernel column |
| Convolution.AccumulateTap | llab/gpu/convolutional.c:31 | one `+=` adds kernel times input into one output cell and leaves every other cell |
| Convolution.AccumulateKernelRow | llab/gpu/convolutional.c:30-32 | the j loop adds the row's products into the output cell only |
| Convolution.AccumulateChannel | llab/gpu/convolutional.c:29-33 | the i loop adds the channel's products into the output cell only |
| Convolution.AccumulateCell | llab/gpu/convolutional.c:28-34 | the c loop adds all the cell's products into the output cell only |
| Convolution.ForwardCell | llab/gpu/convolutional.c:28-35 | after the products and the bias, the output agrees with ConvForward up to and including this cell |
| Convolution.ConvolutionalFeedForward | llab/gpu/convolutional.c:22-38 | the output becomes ConvForward of the old output: interior cells gain their sum plus bias and padding cells are untouched |
| Convolution.ScatterKernelConcat | llab/gpu/convolutional.c:74 | scattering a concatenated tap list into kernel_error is scattering one list after the other |
| Convolution.ScatterInputConcat | llab/gpu/convolutional.c:75 | the same for input_error |
| Convolution.ScatterKernelAt | llab/gpu/convolutional.c:74 | `kernel_error[k]` grows by exactly the sum of `output_error*input` over the taps that use kernel cell k |
| Convolution.ScatterInputAt | llab/gpu/convolutional.c:75 | `input_error[x]` grows by exactly the sum of `kernel*output_error` over the taps that read input cell x |
| Convolution.ZeroErrorNoGain | llab/gpu/convolutional.c:74-75 | a zero output error adds nothing to kernel_error or input_error, since back-prop only accumulates |
| Convolution.TapSumShift | llab/gpu/convolutional.c:31 | moving kernel cell k by d moves a cell's sum by d times the input weight of k, so line 74 accumulates the derivative of line 31 |
| Convolution.KernelGainChain | llab/gpu/convolutional.c:74 | when all taps feed output cell o, the kernel gain is `output_error[o]` times the derivative of the cell's sum |
| Convolution.CellTapsFeed | llab/gpu/convolutional.c:71-75 | every tap of one output cell feeds that cell |
| Convolution.ChannelTapsFeed | llab/gpu/convolutional.c:72-75 | every tap of one channel feeds the current output cell |
| Convolution.RowTapsFeed | llab/gpu/convolutional.c:73-75 | every tap of one kernel row feeds the current output cell |
| Convolution.RowTapsLast | llab/gpu/convolutional.c:73-75 | the j loop visits the taps in order, each with in-range indices |
| Convolution.ScatterKernelSnoc | llab/gpu/convolutional.c:74 | one more tap adds its product into one kernel_error cell |
| Convolution.ScatterInputSnoc | llab/gpu/convolutional.c:75 | one more tap adds its product into one input_error cell |
| Convolution.ScatterTap | llab/gpu/convolutional.c:74-75 | the two `+=` of one tap update exactly one kernel_error cell and one input_error cell |
| Convolution.BackPropKernelRow | llab/gpu/convolutional.c:73-76 | the j loop scatters one kernel row's taps |
| Convolution.BackPropChannel | llab/gpu/convolutional.c:72-77 | the i loop scatters one channel's taps |
| Convolution.BackPropCell | llab/gpu/convolutional.c:71-78 | the c loop scatters all taps of one output cell |
| Convolution.BackPropLine | llab/gpu/convolutional.c:70-80 | one output row scatters its taps and adds its interior output errors to bias_error |
| Convolution.ConvolutionalBackProp | llab/gpu/convolutional.c:65-82 | kernel_error and input_error grow by the scatter of every tap in loop order, and bias_error grows by the sum of the interior output errors |
| Pooling.WindowCell | llab/gpu/convolutional.c:108 | the window index `input_j*(i*stride+k1) + j*stride + k2` is in range and decodes to row `i*stride+k1`, column `j*stride+k2` |
| Pooling.WindowInjective | llab/gpu/convolutional.c:108 | distinct cells of one window have distinct indices |
| Pooling.OutCell | llab/gpu/convolutional.c:112 | `(padding+i)*output_j + padding+j` is an interior cell of the output |
| Pooling.MaxRowBounds | llab/gpu/convolutional.c:107-110 | the running max is at least the start value and every cell of the row, and equals one of them |
| Pooling.MaxWindowBounds | llab/gpu/convolutional.c:106-111 | the same over the whole window |
| Pooling.MaxPoolForwardAt | llab/gpu/convolutional.c:104-113 | interior output cell (i, j) holds the max of its window, starting from the sentinel `-9999` for the first window and `-99999` after |
| Pooling.MaxOfRow | llab/gpu/convolutional.c:107-110 | the k2 loop computes the row max |
| Pooling.MaxOfWindow | llab/gpu/convolutional.c:106-111 | the k1 loop computes the window max |
| Pooling.MaxPoolLine | llab/gpu/convolutional.c:105-114 | one row of windows writes its output cells only and leaves max at `-99999` |
| Pooling.MaxPoolingFeedForward | llab/gpu/convolutional.c:98-118 | the output becomes MaxPoolForward: interior cells hold window maxima and padding cells are untouched |
| Pooling.AvgPoolForwardAt | llab/gpu/convolutional.c:194-201 | interior output cell (i, j) holds its window sum divided by `sub_pool_i*sub_pool_j` |
| Pooling.SumOfRow | llab/gpu/convolutional.c:197-199 | the k2 loop adds the row |
| Pooling.SumOfWindow | llab/gpu/convolutional.c:196-200 | the k1 loop adds the window, starting from 0 |
| Pooling.AvgPoolLine | llab/gpu/convolutional.c:195-203 | one row of windows writes its averages only |
| Pooling.AveragePoolingFeedForward | llab/gpu/convolutional.c:188-205 | the output becomes AvgPoolForward: interior cells hold window averages and padding cells are untouched |
| Pooling.RepeatIsProduct | llab/gpu/convolutional.c:201 | adding x n times is `n*x` |
| Pooling.WindowRepeat | llab/gpu/convolutional.c:201 | adding x once per window cell is `sub_pool_i*sub_pool_j*x` |
| Pooling.SumRowBounds | llab/gpu/convolutional.c:197-199 | a row sum lies between n times the lower and n times the upper bound of its cells |
| Pooling.SumWindowBounds | llab/gpu/convolutional.c:196-200 | the same for the window sum |
| Pooling.AverageWithinBounds | llab/gpu/convolutional.c:201 | the average of a window lies between any lower and upper bound of its cells |
| Pooling.QuotientWithin | llab/gpu/convolutional.c:201 | a sum between `n*lo` and `n*hi` divided by n lies between lo and hi |
| PoolingBackProp.ArgMaxRowAgrees | llab/gpu/convolutional.c:145-152 | the row scan's value is the forward row max, and its index names a cell holding it unless nothing beat the start |
| PoolingBackProp.ArgMaxWindowAgrees | llab/gpu/convolutional.c:144-155 | the same over the whole window |
| PoolingBackProp.ArgMaxRowFirst | llab/gpu/convolutional.c:147-151 | the strict `>` keeps the first position of the maximum in the row |
| PoolingBackProp.ArgMaxWindowFirst | llab/gpu/convolutional.c:144-155 | the chosen cell is the first row-major position of the strict maximum |
| PoolingBackProp.FillRowHit | llab/gpu/convolutional.c:158-164 | the k2 fill writes each cell of the row with its fill value |
| PoolingBackProp.FillRowMiss | llab/gpu/convolutional.c:158-164 | the k2 fill leaves every other cell |
| PoolingBackProp.FillWindowHit | llab/gpu/convolutional.c:157-168 | the window fill writes every window cell |
| PoolingBackProp.FillWindowMiss | llab/gpu/convolutional.c:157-168 | the window fill leaves every cell outside the window |
| PoolingBackProp.StepErr | llab/gpu/convolutional.c:144-168 | one window step overwrites the window with its fill |
| PoolingBackProp.LineMiss | llab/gpu/convolutional.c:143-170 | a row of windows leaves cells outside its windows |
| PoolingBackProp.GridMiss | llab/gpu/convolutional.c:142-171 | the whole sweep leaves cells outside every window |
| PoolingBackProp.OneWindow | llab/gpu/convolutional.c:157-164 | with `stride >= sub_pool`, an input cell lies in at most one window |
| PoolingBackProp.StepSkips | llab/gpu/convolutional.c:157-164 | with disjoint windows, one window step does not touch another window's cells |
| PoolingBackProp.LineTail | llab/gpu/convolutional.c:143-170 | later windows in a row do not change an earlier window's cells |
| PoolingBackProp.LineSkips | llab/gpu/convolutional.c:143-170 | a row of windows does not touch a window of another row |
| PoolingBackProp.GridTail | llab/gpu/convolutional.c:142-171 | later rows do not change an earlier window's cells |
| PoolingBackProp.WindowKeeps | llab/gpu/convolutional.c:142-171 | after the sweep, each window cell holds its own window's fill value |
| PoolingBackProp.WinnerIsForwardMax | llab/gpu/convolutional.c:144-155 | the back-prop scan finds the same maximum as the forward pass, and when it beats the sentinel the chosen cell holds it |
| PoolingBackProp.MaxBackRoutes | llab/gpu/convolutional.c:157-164 | with disjoint windows, the winner cell gets the output error and every other window cell gets 0 |
| PoolingBackProp.AverageBackSpreads | llab/gpu/convolutional.c:229-231 | with disjoint windows, every window cell ends holding `output_error/(sub_pool_i*sub_pool_j)` |
| PoolingBackProp.AverageBackConserves | llab/gpu/convolutional.c:229-231 | with disjoint windows, the cells of each window add up to its output error |
| PoolingBackProp.SharesAddUp | llab/gpu/convolutional.c:231 | a window filled with equal shares of e sums to e |
| PoolingBackProp.ConstantWindowSum | llab/gpu/convolutional.c:231 | a window filled with c sums to `sub_pool_i*sub_pool_j*c` |
| PoolingBackProp.AvgShareTotal | llab/gpu/convolutional.c:231 | the window size times the share is the output error |
| PoolingBackProp.ShareTimesSize | llab/gpu/convolutional.c:231 | `n * ((1/n) * e) == e` for non-zero n |
| PoolingBackProp.ArgMaxOfRow | llab/gpu/convolutional.c:145-152 | the k2 scan computes ArgMaxRow, carrying index1 and index2 |
| PoolingBackProp.ArgMaxOfWindow | llab/gpu/convolutional.c:144-155 | the k1 scan computes ArgMaxWindow |
| PoolingBackProp.MaxFillRow | llab/gpu/convolutional.c:158-166 | the k2 fill writes the error at the winner and 0 elsewhere in the row |
| PoolingBackProp.MaxFillWindow | llab/gpu/convolutional.c:157-168 | the same over the window |
| PoolingBackProp.MaxStep | llab/gpu/convolutional.c:144-168 | one max window step fills the window from its winner and carries the winner's indices |
| PoolingBackProp.MaxBackPropLine | llab/gpu/convolutional.c:143-170 | one row of windows performs its steps and leaves max at `-99999` |
| PoolingBackProp.MaxPoolingBackProp | llab/gpu/convolutional.c:136-172 | input_error becomes PoolBack for max pooling, with index1/index2 carried from window to window |
| PoolingBackProp.AvgFillRow | llab/gpu/convolutional.c:230-232 | the k2 loop writes the share into the row's cells |
| PoolingBackProp.AvgWriteShare | llab/gpu/convolutional.c:231 | one assignment writes the share into one window cell |
| PoolingBackProp.AvgFillWindow | llab/gpu/convolutional.c:229-233 | the k1 loop writes the share into the window |
| PoolingBackProp.AvgBackPropLine | llab/gpu/convolutional.c:228-234 | one row of windows performs its steps |
| PoolingBackProp.AveragePoolingBackProp | llab/gpu/convolutional.c:222-236 | input_error becomes PoolBack for average pooling |
| Lrn.WindowIsClamped | llab/gpu/normalization.c:26-34 | c is in `[lower, upper]` exactly when it is a channel within `(int)(n/2)` of index_ac, and the window contains index_ac |
| Lrn.CellInTensor | llab/gpu/normalization.c:37 | the cell `(c, ai, aj)` of a channel is in range |
| Lrn.ChannelsApart | llab/gpu/normalization.c:90-95 | different channels give different cells |
| Lrn.SquareSumNonNegative | llab/gpu/normalization.c:36-39 | the sum of squares is non-negative |
| Lrn.ScaleBounds | llab/gpu/normalization.c:40 | `k + alpha*sum` is at least k for non-negative alpha, and with `n < 2` the window is the channel alone |
| Lrn.SumSquares | llab/gpu/normalization.c:36-39 | the loop adds the squares over the window |
| Lrn.LrnFeedForward | llab/gpu/normalization.c:21-43 | exactly the cell `(index_ac, index_ai, index_aj)` is written, with the input divided by `pow(k + alpha*sum, beta)` |
| Lrn.ChannelCell | llab/gpu/normalization.c:92-95 | a cell index is channel c's cell exactly when it decodes to `(c, ai, aj)` |
| Lrn.WindowCells | llab/gpu/normalization.c:90-96 | channel c's cell is in the window exactly when c is |
| Lrn.AccumulatedStep | llab/gpu/normalization.c:90-96 | widening the window by one channel adds that channel's term at its cell only |
| Lrn.AccumulateChannel | llab/gpu/normalization.c:91-95 | one iteration adds the self term (`c == index_ac`) or the cross term to channel c's cell and nothing else |
| Lrn.AccumulateWindow | llab/gpu/normalization.c:90-96 | the loop adds each window channel's term at its cell, by `+=` only |
| Lrn.LrnBackProp | llab/gpu/normalization.c:65-97 | tensor_error changes only at the window cells, using the same clamped window as the forward pass |
| BatchNorm.CenteredSumShift | llab/gpu/normalization.c:131 | the sum of `x - mu` is the column sum minus `n*mu` |
| BatchNorm.CenteredAboutMean | llab/gpu/normalization.c:120-126 | deviations about the batch mean add up to zero |
| BatchNorm.SquareDeviationNonNegative | llab/gpu/normalization.c:131-133 | the summed squared deviation is non-negative |
| BatchNorm.ConstantColumnSums | llab/gpu/normalization.c:120-137 | a constant column sums to `n*c` and has zero squared deviation |
| BatchNorm.BatchStatisticsBounds | llab/gpu/normalization.c:120-137 | the variance is non-negative, and a constant column has that constant as mean and variance 0 |
| BatchNorm.OutputSumLinear | llab/gpu/normalization.c:141-142 | summed over the batch, the outputs are the scaled centred sum times gamma plus `n*beta` |
| BatchNorm.OutputsAverageBeta | llab/gpu/normalization.c:139-144 | normalised with the batch mean, each feature's outputs average to beta |
| BatchNorm.MeanRow | llab/gpu/normalization.c:121-125 | one row adds into mean and divides by batch_size on the last row |
| BatchNorm.MeanPass | llab/gpu/normalization.c:120-126 | mean becomes (old mean + column sum)/batch_size, which is the batch mean when mean starts at 0 |
| BatchNorm.VarianceRow | llab/gpu/normalization.c:130-136 | one row adds the squared deviation and divides on the last row |
| BatchNorm.VariancePass | llab/gpu/normalization.c:129-137 | var becomes (old var + summed squared deviation)/batch_size |
| BatchNorm.NormalizeCell | llab/gpu/normalization.c:141-142 | one cell of temp_vectors is normalised, and outputs is `temp*gamma + beta` |
| BatchNorm.NormalizeRow | llab/gpu/normalization.c:140-143 | one row is normalised and no other cell is written |
| BatchNorm.NormalizePass | llab/gpu/normalization.c:139-144 | every batch cell is normalised, scaled and shifted, and nothing outside the batch is written |
| BatchNorm.BatchNormFeedForward | llab/gpu/normalization.c:116-146 | mean and var are the batch statistics (from zeroed arrays), and temp_vectors and outputs are normalised with them |
| BatchNorm.GammaBetaRow | llab/gpu/normalization.c:175-180 | one row adds into gamma_error, beta_error and temp_array and overwrites its temp_vectors_error row |
| BatchNorm.GammaBetaSumsNext | llab/gpu/normalization.c:174-181 | the accumulated sums advance by one row |
| BatchNorm.BatchNormGammaBetaError | llab/gpu/normalization.c:174-181 | gamma_error grows by the sum of `out_err*temp`, beta_error by the sum of `out_err`, and temp_array by the sum of `x - mean`; temp_vectors_error is overwritten with `out_err*gamma` |
| BatchNorm.SpanIsProduct | llab/gpu/normalization.c:222 | k mini-batches of m rows span `k*m` rows |
| BatchNorm.SpanMonotone | llab/gpu/normalization.c:222 | an earlier batch ends no later |
| BatchNorm.SpanOrder | llab/gpu/normalization.c:222 | batch b starts before batch k exactly when `b < k` |
| BatchNorm.BatchHasColumn | llab/gpu/normalization.c:224 | each batch the loop feeds has the feature |
| BatchNorm.ShuffledRows | llab/gpu/normalization.c:216 | shuffling keeps every row wide enough |
| BatchNorm.TotalsStep | llab/gpu/normalization.c:222-228 | one iteration adds that batch's mean and variance into the totals |
| BatchNorm.TotalsAfterStep | llab/gpu/normalization.c:222-228 | the running totals advance by one batch for every feature |
| BatchNorm.MeanTotalSameRows | llab/gpu/normalization.c:224 | as written, k iterations add k times the mean of the first mini-batch |
| BatchNorm.ColumnSumSplit | llab/gpu/normalization.c:222-226 | a column sum splits at any row |
| BatchNorm.MeanTotalStep | llab/gpu/normalization.c:222-226 | with each batch's own rows, the mean total advances by the next batch's mean |
| BatchNorm.SumTotalIsColumnSum | llab/gpu/normalization.c:222-226 | the per-batch column sums add up to the column sum of all k*m rows |
| BatchNorm.MeanTotalIsQuotient | llab/gpu/normalization.c:222-226 | the total of batch means is the overall column sum divided by m |
| BatchNorm.FinalMeanSameRows | llab/gpu/normalization.c:224 | as written, final_mean is the first mini-batch's mean, whatever the other rows hold |
| BatchNorm.SameRowsCounterexample | llab/gpu/normalization.c:224 | for rows 0, 0, 2, 2 with m = 2 the as-written final mean is 0 and the intended one is 1, the mean of all rows |
| BatchNorm.FinalMeanIsOverallMean | llab/gpu/normalization.c:222-231 | corrected: final_mean is the mean of all `n_vectors` rows |
| BatchNorm.QuotientOfQuotient | llab/gpu/normalization.c:231 | dividing c/m by k is dividing c by `k*m` |
| BatchNorm.FinalVarianceIsBessel | llab/gpu/normalization.c:232 | for one batch of `m >= 2` rows, `m/(m-1)` times the population variance is the squared deviation over `m - 1` |
| BatchNorm.BesselArithmetic | llab/gpu/normalization.c:232 | `m/(m-1) * (d/m) == d/(m-1)` for `m >= 2` |
| BatchNorm.FinalsFromTotals | llab/gpu/normalization.c:230-233 | totals gathered from zero, then averaged and corrected, are the final statistics |
| BatchNorm.TotalsStepAt | llab/gpu/normalization.c:225-226 | one feature's running totals advance by one batch |
| BatchNorm.BnStats.ResetBn | llab/gpu/normalization.c:223 | mean and var are zeroed below the vector size, and nothing else changes |
| BatchNorm.BnStats.RunBatch | llab/gpu/normalization.c:223-224 | after the reset and the feed-forward, mean and var are that batch's statistics |
| BatchNorm.BnStats.AddBatch | llab/gpu/normalization.c:223-226 | the two sum1D calls add the batch mean and variance into the heap totals |
| BatchNorm.BnStats.AddBatchAt | llab/gpu/normalization.c:222-227 | one iteration of the batch loop advances the totals invariant |
| BatchNorm.BnStats.AccumulateBatches | llab/gpu/normalization.c:222-228 | after the loop the totals hold the sums over all `n/m` batches |
| BatchNorm.BnStats.ComputeFinals | llab/gpu/normalization.c:213-236 | final_mean and final_var hold the averaged totals, the variance corrected by `m/(m-1)`, and their tails are unchanged |
| BatchNorm.BnStats.FinalMeanVariance | llab/gpu/normalization.c:211-242 | the rows are always shuffled; the routine exits, leaving the finals, exactly when `n % m != 0`; otherwise the finals are as stated by Finals |
| Sweeps.Act | llab/gpu/utils.c:77-78 | an L2 visit changes only the derivative; an optimiser visit leaves the derivative, and Nesterov leaves the second moment |
| Sweeps.ParamBuffer.ApplyAt | llab/gpu/utils.c:668 | one visit applies the action at index x of all four buffers together and changes no other index |
| Sweeps.KernelIndexOnto | llab/gpu/utils.c:665-668 | every flat index below `channels*kr*kc` is `u*kr*kc + z*kc + w` for some in-range (u, z, w) |
| Sweeps.KernelIndexOneToOne | llab/gpu/utils.c:665-668 | different (u, z, w) give different flat indices |
| Sweeps.SweepRun | llab/gpu/utils.c:667-668 | the w loop applies the action once to each index of its run and nowhere else |
| Sweeps.SweepRows | llab/gpu/utils.c:666-668 | the z loop applies the action once to each index of its block and nowhere else |
| Sweeps.SweepKernel | llab/gpu/utils.c:665-670 | the u, z, w loops apply the action exactly once to every element of a kernel buffer |
| Sweeps.ConvLayer.Update | llab/gpu/utils.c:662-677 | every kernel element and every bias gets exactly one optimiser step with the mini-batch size; with the Adam rule it is `update_convolutional_layer_adam` (utils.c:716-731), and per convolutional layer of a residual layer it is `update_residual_layer_*` (utils.c:497-598) |
| Sweeps.ConvLayer.AddL2 | llab/gpu/utils.c:1057-1072 | ridge regression is applied exactly once to every kernel element's derivative, and never to a bias; per convolutional layer of a residual layer it is `add_l2_residual_layer` (utils.c:1002-1017) |
| Sweeps.SumConvDerivatives | llab/gpu/utils.c:771-786 | it exits before any write exactly when an argument is NULL; otherwise every d_kernels and d_biases entry of m3 is the sum of m's and m2's; per convolutional layer of a residual layer it is `sum_residual_layers_partial_derivatives` (utils.c:609-625) |
| Sweeps.SumKernel | llab/gpu/utils.c:779 | sum1D over one kernel's derivative buffer |
| Sweeps.SeparateGrads | llab/gpu/utils.c:779-782 | m3's kernel derivative buffer is none of the buffers read afterwards |
| Sweeps.FcLayer.Update | llab/gpu/utils.c:822-832 | every weight and every bias gets exactly one optimiser step; with the Adam rule it is `update_fully_connected_layer_adam` (utils.c:886-896) |
| Sweeps.FcLayer.AddL2 | llab/gpu/utils.c:1112-1122 | ridge regression is applied exactly once to every weight derivative, and never to a bias |
| Sweeps.SumFcDerivatives | llab/gpu/utils.c:953-965 | it exits before any write exactly when an argument is NULL; otherwise every d_weights and d_biases entry of m3 is the sum of m's and m2's |
| Sweeps.BnLayer.Update | llab/gpu/utils.c:864-872 | every gamma and beta gets exactly one optimiser step with batch size 1; with the Adam rule it is `update_batch_normalized_layer_adam_bmodel` (utils.c:932-940) |

## Left out

- The random generators `r2`, `drand`, `random_normal` and `random_general_gaussian*`, and `srand(time(NULL))`, are left out because they are randomness and transcendental float math. The `rand()` and `r2()` values the shuffles and the dropout mask consume are sequence parameters instead.
- `read_files` and `read_file_in_char_vector` are left out: they only do file and directory I/O.
- `bool_is_real` is left out: it is a NaN test and has no meaning over `real`.
- Floating-point rounding, overflow, infinities and NaN are not modelled; scalars are `real`.
- `sqrtf` and `pow` are function parameters, so nothing is claimed about their values.
- Where C divides a float by zero (an infinity or a NaN), `FloatDiv` returns 0 instead. The divisions modelled this way are:
  - `lambda/(float)n` in `ridge_regression` (utils.c:78) when n is 0 (`Buffers.Ridge`);
  - the divisions by `pow(k + alpha*sum, beta)` and by `temp` in the LRN routines (normalization.c:42, 92, 95) when that power is 0 (`Lrn.LrnFeedForward`, `Lrn.LrnBackProp`);
  - the division by `sqrtf(var + epsilon)` in batch-norm forward when it is 0 (`BatchNorm.NormalizeCell`);
  - the divisions by the batch count k = n_vectors/mini_batch_size (normalization.c:231-232) when n_vectors < mini_batch_size, so k is 0 (`BatchNorm.BnStats.ComputeFinals`, `BatchNorm.BnStats.FinalMeanVariance`);
  - `m/(m-1)` (normalization.c:232) when m is 1.
- Pooling.AveragePoolingFeedForward, Pooling.AvgPoolLine and Pooling.AvgPoolForward require a window of at least one cell (`sub_pool_i, sub_pool_j >= 1`) instead of using `FloatDiv`. For an empty window, the C division `sum/(sub_pool_i*sub_pool_j)` (convolutional.c:201) is 0/0, a NaN, and that case is not modelled.
- The `input_error` loops of `batch_normalization_back_prop` are not modelled. They depend on `sqrtf` and `pow`, and the integer divisions `1/batch_size`, `2/batch_size` and `3/2` truncate.
- `nesterov_momentum`, `adam_algorithm` and `reset_bn` are not part of this model. The optimiser steps are the function values in `Rule`; `reset_bn` is modelled as zeroing mean and var (`ResetBn`).
- The `model`/`bmodel` pointer graph is not modelled. The sweeps cover one layer; the outer loops over a model's layers repeat the same statement per layer.
- Each `*_bmodel` twin has the same body as its `model` version, so it is covered by the same member.
- Sweeps.ConvLayer.Update, Sweeps.FcLayer.Update, Sweeps.BnLayer.Update, Sweeps.ConvLayer.AddL2 and Sweeps.FcLayer.AddL2 require their buffers to be pairwise distinct, as the allocator gives them. Sweeps.SumConvDerivatives and Sweeps.SumFcDerivatives likewise require m3's buffers to differ from m's and m2's. Aliasing between these layers is not modelled.
- BatchNorm.BnStats.FinalMeanVariance models `exit(1)` as a return with `exited` set.
- Arrays the C code only reads (the row tables of batch-norm) are passed as sequences, so writes through an alias of them are not modelled.
- Itoa.Itoa excludes INT_MIN, whose negation at line 126 overflows. Its precondition asks for a buffer longer than the text instead of assuming the caller's size.
- Convolution.ConvolutionalBackProp does not take the unused `bias` argument. `*bias_error` is passed in and returned as a value.
- Lrn.LrnBackProp never reads output_error, just as the C code does not. The chain-rule factor is therefore absent from the model as well.
- Convolution.ConvolutionalFeedForward and Convolution.ConvolutionalBackProp require `ConvShape.Valid()`: `stride >= 1` and a kernel no larger than the input. The C code checks neither. With a zero stride it divides by zero (convolutional.c:24-25, 67-68). With a larger kernel, C's truncating `(input_i-kernel_i)/stride` is -1 or less when the stride is at most `kernel_i-input_i`, so `output_i` is at most `2*padding` and the loops run zero times; C then does nothing, but the model does not admit the call. Otherwise the quotient truncates to 0 (Dafny's `/` would give -1), so one window position is swept whose window reaches past the input's rows or columns. Neither case is modelled.
- The pooling routines require `PoolShape.Valid()`, the same condition, for the same reasons: a zero stride divides by zero (convolutional.c:100, 138, 190, 224), and a larger window either runs no loop or reads past the input. The results about routed and conserved errors in the backward passes also need disjoint windows (`stride >= sub_pool`).
- Convolution.ConvolutionalFeedForward, Convolution.ConvolutionalBackProp, Lrn.LrnBackProp, PoolingBackProp.MaxPoolingBackProp, PoolingBackProp.AveragePoolingBackProp, Pooling.MaxPoolingFeedForward, Pooling.AveragePoolingFeedForward, BatchNorm.BatchNormFeedForward, BatchNorm.BatchNormGammaBetaError, the methods of BatchNorm.BnStats (through its `Valid()`), Shuffle.ShuffleMatrices, Shuffle.ShuffleWithLabels, Shuffle.ShuffleWithTwoLabels and their `Swapped` versions require the buffers they write to differ from the buffers they read and from each other. Examples are output ≠ input and ≠ kernel; input_error ≠ input, kernel and output_error; tensor_error ≠ tensor; m ≠ m1 and the label vectors ≠ the row tables. No call site in the C code passes aliased buffers to these routines, but what they compute when buffers alias is not modelled.

## Findings

| source | as written | input that shows it | evidently intended | confidence | as-written member | corrected member |
|---|---|---|---|---|---|---|
| llab/gpu/utils.c:217-218 | `v[i] = v[i]; v[i] = t3;` copies `v[j]` into `v[i]` and never writes `v[j]` | n = 2, a draw that picks j = 1: the rows swap, and labels [0, 1] become [1, 1] | `v[j] = v[i]; v[i] = t3;` swaps labels with their rows | high (not executed) | Shuffle.LabelsNotPermuted | Shuffle.ShuffleWithLabelsSwapped |
| llab/gpu/utils.c:254-257 | the same statements for `v` and `v2` | the same input, for each of the two label vectors | both label vectors swapped like the rows | high (not executed) | Shuffle.ShuffleWithTwoLabels | Shuffle.ShuffleWithTwoLabelsSwapped |
| llab/gpu/normalization.c:224 | every iteration passes `input_vectors`, the first mini-batch, to the feed-forward | rows 0, 0, 2, 2 with mini_batch_size 2: final mean 0 | `input_vectors + i`, so the final mean is 1, the mean of all rows | high (not executed) | BatchNorm.SameRowsCounterexample | BatchNorm.FinalMeanIsOverallMean |
