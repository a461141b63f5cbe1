/**
  Element-wise buffer routines of llab/gpu/utils.c: `sum1D`, `dot1D`,
  `mul_value`, `copy_array`/`copy_char_array`, the dropout array and mask,
  and the per-weight L2 term `ridge_regression`.

  Every routine walks `i` from 0 to `size` and writes `output[i]` from the
  values at index `i` only, so the result is the element-wise one even when
  `output` is the same buffer as an input: index `i` is read before it is
  written and is never read again.
*/
module Buffers {

  /** C float division, total over `real`: a zero divisor (an infinity or a
      NaN in C) is mapped to 0. */
  function FloatDiv(a: real, b: real): real
  {
    if b != 0.0 then a / b else 0.0
  }

  /** FloatDiv undoes a multiplication by a non-zero divisor and yields 0
      for a zero one. */
  lemma FloatDivInverse(a: real, b: real)
    ensures b != 0.0 ==> FloatDiv(a, b) * b == a
    ensures b == 0.0 ==> FloatDiv(a, b) == 0.0
  {
  }

  /** `sum1D`: output[i] = input1[i] + input2[i] for i < size; `output` may
      be `input1` or `input2`. */
  method Sum1D(input1: array<real>, input2: array<real>, output: array<real>, size: nat)
    requires size <= input1.Length && size <= input2.Length && size <= output.Length
    modifies output
    ensures forall k :: 0 <= k < size ==> output[k] == old(input1[k]) + old(input2[k])
    ensures forall k :: size <= k < output.Length ==> output[k] == old(output[k])
  {
    var i := 0;
    while i < size
      invariant 0 <= i <= size
      invariant forall k :: 0 <= k < i ==> output[k] == old(input1[k]) + old(input2[k])
      invariant forall k :: i <= k < output.Length ==> output[k] == old(output[k])
      invariant forall k :: i <= k < input1.Length ==> input1[k] == old(input1[k])
      invariant forall k :: i <= k < input2.Length ==> input2[k] == old(input2[k])
    {
      output[i] := input1[i] + input2[i];
      i := i + 1;
    }
  }

  /** `dot1D` (an element-wise product, despite the name). */
  method Dot1D(input1: array<real>, input2: array<real>, output: array<real>, size: nat)
    requires size <= input1.Length && size <= input2.Length && size <= output.Length
    modifies output
    ensures forall k :: 0 <= k < size ==> output[k] == old(input1[k]) * old(input2[k])
    ensures forall k :: size <= k < output.Length ==> output[k] == old(output[k])
  {
    var i := 0;
    while i < size
      invariant 0 <= i <= size
      invariant forall k :: 0 <= k < i ==> output[k] == old(input1[k]) * old(input2[k])
      invariant forall k :: i <= k < output.Length ==> output[k] == old(output[k])
      invariant forall k :: i <= k < input1.Length ==> input1[k] == old(input1[k])
      invariant forall k :: i <= k < input2.Length ==> input2[k] == old(input2[k])
    {
      output[i] := input1[i] * input2[i];
      i := i + 1;
    }
  }

  /** `mul_value`: output[i] = input[i] * value. */
  method MulValue(input: array<real>, value: real, output: array<real>, dimension: nat)
    requires dimension <= input.Length && dimension <= output.Length
    modifies output
    ensures forall k :: 0 <= k < dimension ==> output[k] == old(input[k]) * value
    ensures forall k :: dimension <= k < output.Length ==> output[k] == old(output[k])
  {
    var i := 0;
    while i < dimension
      invariant 0 <= i <= dimension
      invariant forall k :: 0 <= k < i ==> output[k] == old(input[k]) * value
      invariant forall k :: i <= k < output.Length ==> output[k] == old(output[k])
      invariant forall k :: i <= k < input.Length ==> input[k] == old(input[k])
    {
      output[i] := input[i] * value;
      i := i + 1;
    }
  }

  /** `copy_array` (T = real) and `copy_char_array` (T = char). */
  method CopyArray<T>(input: array<T>, output: array<T>, size: nat)
    requires size <= input.Length && size <= output.Length
    modifies output
    ensures output[..size] == old(input[..size])
    ensures output[size..] == old(output[size..])
  {
    var i := 0;
    while i < size
      invariant 0 <= i <= size
      invariant forall k :: 0 <= k < i ==> output[k] == old(input[k])
      invariant forall k :: i <= k < output.Length ==> output[k] == old(output[k])
      invariant forall k :: i <= k < input.Length ==> input[k] == old(input[k])
    {
      output[i] := input[i];
      i := i + 1;
    }
  }

  /** `get_dropout_array`: output[i] = mask[i] * input[i]. */
  method GetDropoutArray(size: nat, mask: array<real>, input: array<real>, output: array<real>)
    requires size <= mask.Length && size <= input.Length && size <= output.Length
    modifies output
    ensures forall k :: 0 <= k < size ==> output[k] == old(mask[k]) * old(input[k])
    ensures forall k :: size <= k < output.Length ==> output[k] == old(output[k])
  {
    Dot1D(mask, input, output, size);
  }

  /** `set_dropout_mask`: the i-th uniform draw `draws[i]` (r2() in C) below
      `threshold` zeroes mask[i]; any other cell keeps its value. */
  method SetDropoutMask(size: nat, mask: array<real>, threshold: real, draws: seq<real>)
    requires size <= mask.Length && size <= |draws|
    modifies mask
    ensures forall k :: 0 <= k < size ==> mask[k] == (if draws[k] < threshold then 0.0 else old(mask[k]))
    ensures forall k :: size <= k < mask.Length ==> mask[k] == old(mask[k])
  {
    var i := 0;
    while i < size
      invariant 0 <= i <= size
      invariant forall k :: 0 <= k < i ==> mask[k] == (if draws[k] < threshold then 0.0 else old(mask[k]))
      invariant forall k :: i <= k < mask.Length ==> mask[k] == old(mask[k])
    {
      if draws[i] < threshold {
        mask[i] := 0.0;
      }
      i := i + 1;
    }
  }

  /** `ridge_regression`: the derivative `dw` of weight `w` gains the L2 term
      (lambda / n) * w. */
  function Ridge(dw: real, w: real, lambda: real, n: int): (r: real)
  {
    dw + FloatDiv(lambda, n as real) * w
  }

  /** The L2 term is linear in the weight: applying it to dw grows dw by
      exactly lambda * w / n when n != 0, and a zero weight is left alone. */
  lemma RidgeGrowth(dw: real, w: real, lambda: real, n: int)
    ensures n != 0 ==> (Ridge(dw, w, lambda, n) - dw) * (n as real) == lambda * w
    ensures w == 0.0 ==> Ridge(dw, w, lambda, n) == dw
  {
    if n != 0 {
      var q := FloatDiv(lambda, n as real);
      FloatDivInverse(lambda, n as real);
      calc {
        (Ridge(dw, w, lambda, n) - dw) * (n as real);
        q * w * (n as real);
        (q * (n as real)) * w;
        lambda * w;
      }
    }
  }

  /** The L2 penalty of one weight whose derivative `ridge_regression`
      adds: lambda / (2n) * w * w. */
  function L2Penalty(w: real, lambda: real, n: int): real
  {
    FloatDiv(lambda, n as real) * w * w / 2.0
  }

  /** The term ridge regression adds is exactly the gradient of the L2
      penalty: moving the weight by h changes the penalty by that term
      times h, plus the penalty of h itself (second order in h). */
  lemma RidgeIsPenaltyGradient(dw: real, w: real, h: real, lambda: real, n: int)
    ensures L2Penalty(w + h, lambda, n) - L2Penalty(w, lambda, n)
            == (Ridge(dw, w, lambda, n) - dw) * h + L2Penalty(h, lambda, n)
  {
  }
}
