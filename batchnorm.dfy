/**
  Batch normalisation of llab/gpu/normalization.c: the feed-forward pass
  (per-feature batch mean, population variance, then scale and shift), the
  gamma/beta/temp part of the back-propagation, and the post-training
  finalisation of mean and variance.

  A batch of input vectors (`float**` rows that are only read) is a
  `seq<seq<real>>`; the per-feature buffers are `array<real>` and the
  batch x feature buffers written in place are `array2<real>`. `sqrtf` is a
  function parameter.
*/
module BatchNorm {
  import opened Buffers
  import Shuffle
  import Tensor

  /** Rows 0 .. n-1 exist and each has at least `width` features. */
  predicate Rows(rows: seq<seq<real>>, n: int, width: int)
  {
    0 <= n <= |rows| && forall i :: 0 <= i < n ==> width <= |rows[i]|
  }

  /** Rows 0 .. n-1 all have feature j. */
  predicate HasColumn(rows: seq<seq<real>>, n: int, j: int)
  {
    0 <= n <= |rows| && 0 <= j && forall i :: 0 <= i < n ==> j < |rows[i]|
  }

  /** Sum of feature j over rows 0 .. n-1. */
  function ColumnSum(rows: seq<seq<real>>, n: int, j: int): real
    requires HasColumn(rows, n, j)
    decreases n
  {
    if n == 0 then 0.0 else ColumnSum(rows, n - 1, j) + rows[n - 1][j]
  }

  /** Sum over rows 0 .. n-1 of (x - mu). */
  function CenteredSum(rows: seq<seq<real>>, n: int, j: int, mu: real): real
    requires HasColumn(rows, n, j)
    decreases n
  {
    if n == 0 then 0.0 else CenteredSum(rows, n - 1, j, mu) + (rows[n - 1][j] - mu)
  }

  /** Sum over rows 0 .. n-1 of (x - mu)^2. */
  function SquareDeviation(rows: seq<seq<real>>, n: int, j: int, mu: real): real
    requires HasColumn(rows, n, j)
    decreases n
  {
    if n == 0 then 0.0
    else
      var d := rows[n - 1][j] - mu;
      SquareDeviation(rows, n - 1, j, mu) + d * d
  }

  /** Sum over rows 0 .. n-1 of a[i][j] * b[i][j]. */
  function ProductSum(a: seq<seq<real>>, b: seq<seq<real>>, n: int, j: int): real
    requires HasColumn(a, n, j) && HasColumn(b, n, j)
    decreases n
  {
    if n == 0 then 0.0 else ProductSum(a, b, n - 1, j) + a[n - 1][j] * b[n - 1][j]
  }

  /** h_hat of the C code: (x - mean) / sqrt(var + epsilon). */
  function Normalized(x: real, mean: real, variance: real, epsilon: real, sqrt: real -> real): real
  {
    FloatDiv(x - mean, sqrt(variance + epsilon))
  }

  /** Sum over rows 0 .. n-1 of the output Normalized(x) * gamma + beta. */
  function OutputSum(rows: seq<seq<real>>, n: int, j: int, mean: real, variance: real, epsilon: real,
                     sqrt: real -> real, gamma: real, beta: real): real
    requires HasColumn(rows, n, j)
    decreases n
  {
    if n == 0 then 0.0
    else OutputSum(rows, n - 1, j, mean, variance, epsilon, sqrt, gamma, beta)
         + (Normalized(rows[n - 1][j], mean, variance, epsilon, sqrt) * gamma + beta)
  }

  /** The batch mean of feature j. */
  function BatchMean(rows: seq<seq<real>>, n: int, j: int): real
    requires HasColumn(rows, n, j) && n >= 1
  {
    ColumnSum(rows, n, j) / (n as real)
  }

  /** The population variance of feature j about the batch mean. */
  function BatchVariance(rows: seq<seq<real>>, n: int, j: int): real
    requires HasColumn(rows, n, j) && n >= 1
  {
    SquareDeviation(rows, n, j, BatchMean(rows, n, j)) / (n as real)
  }

  lemma {:induction false} CenteredSumShift(rows: seq<seq<real>>, n: int, j: int, mu: real)
    requires HasColumn(rows, n, j)
    ensures CenteredSum(rows, n, j, mu) == ColumnSum(rows, n, j) - (n as real) * mu
    decreases n
  {
    if n > 0 {
      CenteredSumShift(rows, n - 1, j, mu);
      assert (n as real) * mu == ((n - 1) as real) * mu + mu;
    }
  }

  /** Deviations from the batch mean cancel out: this is what temp_array
      accumulates in the back-propagation when mean holds the forward
      pass's batch mean. */
  lemma CenteredAboutMean(rows: seq<seq<real>>, n: int, j: int)
    requires HasColumn(rows, n, j) && n >= 1
    ensures CenteredSum(rows, n, j, BatchMean(rows, n, j)) == 0.0
  {
    CenteredSumShift(rows, n, j, BatchMean(rows, n, j));
  }

  lemma {:induction false} SquareDeviationNonNegative(rows: seq<seq<real>>, n: int, j: int, mu: real)
    requires HasColumn(rows, n, j)
    ensures SquareDeviation(rows, n, j, mu) >= 0.0
    decreases n
  {
    if n > 0 {
      SquareDeviationNonNegative(rows, n - 1, j, mu);
      var d := rows[n - 1][j] - mu;
      assert d * d >= 0.0;
    }
  }

  lemma {:induction false} ConstantColumnSums(rows: seq<seq<real>>, n: int, j: int, c: real)
    requires HasColumn(rows, n, j)
    requires forall i :: 0 <= i < n ==> rows[i][j] == c
    ensures ColumnSum(rows, n, j) == (n as real) * c
    ensures SquareDeviation(rows, n, j, c) == 0.0
    decreases n
  {
    if n > 0 {
      ConstantColumnSums(rows, n - 1, j, c);
    }
  }

  /** A feature constant over the batch has that constant as its mean and
      a zero variance; the variance is never negative. */
  lemma BatchStatisticsBounds(rows: seq<seq<real>>, n: int, j: int)
    requires HasColumn(rows, n, j) && n >= 1
    ensures BatchVariance(rows, n, j) >= 0.0
    ensures (forall i :: 0 <= i < n ==> rows[i][j] == rows[0][j]) ==>
      BatchMean(rows, n, j) == rows[0][j] && BatchVariance(rows, n, j) == 0.0
  {
    SquareDeviationNonNegative(rows, n, j, BatchMean(rows, n, j));
    if forall i :: 0 <= i < n ==> rows[i][j] == rows[0][j] {
      var c := rows[0][j];
      ConstantColumnSums(rows, n, j, c);
      ScaledQuotient(n, c);
      assert BatchMean(rows, n, j) == c;
    }
  }

  lemma ScaledQuotient(n: int, c: real)
    requires n >= 1
    ensures ((n as real) * c) / (n as real) == c
  {
  }

  lemma FloatDivAdd(a: real, b: real, s: real)
    ensures FloatDiv(a + b, s) == FloatDiv(a, s) + FloatDiv(b, s)
  {
    if s != 0.0 {
      assert (FloatDiv(a, s) + FloatDiv(b, s)) * s == FloatDiv(a, s) * s + FloatDiv(b, s) * s;
    }
  }

  lemma {:induction false} OutputSumLinear(rows: seq<seq<real>>, n: int, j: int, mean: real, variance: real,
                                           epsilon: real, sqrt: real -> real, gamma: real, beta: real)
    requires HasColumn(rows, n, j)
    ensures OutputSum(rows, n, j, mean, variance, epsilon, sqrt, gamma, beta) ==
      FloatDiv(CenteredSum(rows, n, j, mean), sqrt(variance + epsilon)) * gamma + (n as real) * beta
    decreases n
  {
    if n > 0 {
      OutputSumLinear(rows, n - 1, j, mean, variance, epsilon, sqrt, gamma, beta);
      var s := sqrt(variance + epsilon);
      var a, b := CenteredSum(rows, n - 1, j, mean), rows[n - 1][j] - mean;
      var q, r := FloatDiv(a, s), FloatDiv(b, s);
      FloatDivAdd(a, b, s);
      assert CenteredSum(rows, n, j, mean) == a + b;
      assert OutputSum(rows, n, j, mean, variance, epsilon, sqrt, gamma, beta) ==
        OutputSum(rows, n - 1, j, mean, variance, epsilon, sqrt, gamma, beta) + (r * gamma + beta);
      Regroup(q, r, gamma, beta, (n - 1) as real);
    }
  }

  lemma Regroup(q: real, r: real, gamma: real, beta: real, k: real)
    ensures q * gamma + k * beta + (r * gamma + beta) == (q + r) * gamma + (k + 1.0) * beta
  {
  }

  /** Normalising about the batch mean makes each output feature average
      to beta[j], whatever gamma, the variance or sqrt are. */
  lemma OutputsAverageBeta(rows: seq<seq<real>>, n: int, j: int, variance: real, epsilon: real,
                           sqrt: real -> real, gamma: real, beta: real)
    requires HasColumn(rows, n, j) && n >= 1
    ensures OutputSum(rows, n, j, BatchMean(rows, n, j), variance, epsilon, sqrt, gamma, beta) / (n as real) == beta
  {
    OutputSumLinear(rows, n, j, BatchMean(rows, n, j), variance, epsilon, sqrt, gamma, beta);
    CenteredAboutMean(rows, n, j);
  }

  /** One row of the mean loop of normalization.c:120-126: mean[j] += x,
      divided by batch_size on the last row. */
  method MeanRow(rows: seq<seq<real>>, i: int, batch: int, width: nat, mean: array<real>)
    requires Rows(rows, batch, width) && 0 <= i < batch && width <= mean.Length
    modifies mean
    ensures forall j :: 0 <= j < width ==>
      mean[j] == if i == batch - 1 then (old(mean[j]) + rows[i][j]) / (batch as real) else old(mean[j]) + rows[i][j]
    ensures forall j :: width <= j < mean.Length ==> mean[j] == old(mean[j])
  {
    var j := 0;
    while j < width
      invariant 0 <= j <= width
      invariant forall k :: 0 <= k < j ==>
        mean[k] == if i == batch - 1 then (old(mean[k]) + rows[i][k]) / (batch as real) else old(mean[k]) + rows[i][k]
      invariant forall k :: j <= k < mean.Length ==> mean[k] == old(mean[k])
    {
      mean[j] := mean[j] + rows[i][j];
      if i == batch - 1 {
        mean[j] := mean[j] / (batch as real);
      }
      j := j + 1;
    }
  }

  /** The mean loop: mean[j] ends as (its old value + the column sum) /
      batch_size, so a zero-initialised mean ends as the batch mean. */
  method MeanPass(rows: seq<seq<real>>, batch: int, width: nat, mean: array<real>)
    requires Rows(rows, batch, width) && width <= mean.Length
    modifies mean
    ensures forall j :: 0 <= j < width ==>
      mean[j] == if batch >= 1 then (old(mean[j]) + ColumnSum(rows, batch, j)) / (batch as real) else old(mean[j])
    ensures forall j :: width <= j < mean.Length ==> mean[j] == old(mean[j])
  {
    var i := 0;
    while i < batch
      invariant 0 <= i <= batch
      invariant forall j :: 0 <= j < width ==>
        mean[j] == if i == batch && batch >= 1 then (old(mean[j]) + ColumnSum(rows, batch, j)) / (batch as real)
                   else old(mean[j]) + ColumnSum(rows, i, j)
      invariant forall j :: width <= j < mean.Length ==> mean[j] == old(mean[j])
    {
      MeanRow(rows, i, batch, width, mean);
      i := i + 1;
    }
  }

  /** One row of the variance loop of normalization.c:129-137. */
  method VarianceRow(rows: seq<seq<real>>, i: int, batch: int, width: nat, mean: seq<real>, variance: array<real>)
    requires Rows(rows, batch, width) && 0 <= i < batch && width <= |mean| && width <= variance.Length
    modifies variance
    ensures forall j :: 0 <= j < width ==>
      variance[j] == if i == batch - 1
                then (old(variance[j]) + (rows[i][j] - mean[j]) * (rows[i][j] - mean[j])) / (batch as real)
                else old(variance[j]) + (rows[i][j] - mean[j]) * (rows[i][j] - mean[j])
    ensures forall j :: width <= j < variance.Length ==> variance[j] == old(variance[j])
  {
    var j := 0;
    while j < width
      invariant 0 <= j <= width
      invariant forall k :: 0 <= k < j ==>
        variance[k] == if i == batch - 1
                  then (old(variance[k]) + (rows[i][k] - mean[k]) * (rows[i][k] - mean[k])) / (batch as real)
                  else old(variance[k]) + (rows[i][k] - mean[k]) * (rows[i][k] - mean[k])
      invariant forall k :: j <= k < variance.Length ==> variance[k] == old(variance[k])
    {
      var temp := rows[i][j] - mean[j];
      temp := temp * temp;
      variance[j] := variance[j] + temp;
      if i == batch - 1 {
        variance[j] := variance[j] / (batch as real);
      }
      j := j + 1;
    }
  }

  /** The variance loop: variance[j] ends as (its old value + the squared
      deviations about mean[j]) / batch_size. */
  method VariancePass(rows: seq<seq<real>>, batch: int, width: nat, mean: seq<real>, variance: array<real>)
    requires Rows(rows, batch, width) && width <= |mean| && width <= variance.Length
    modifies variance
    ensures forall j :: 0 <= j < width ==>
      variance[j] == if batch >= 1 then (old(variance[j]) + SquareDeviation(rows, batch, j, mean[j])) / (batch as real)
                else old(variance[j])
    ensures forall j :: width <= j < variance.Length ==> variance[j] == old(variance[j])
  {
    var i := 0;
    while i < batch
      invariant 0 <= i <= batch
      invariant forall j :: 0 <= j < width ==>
        variance[j] == if i == batch && batch >= 1
                  then (old(variance[j]) + SquareDeviation(rows, batch, j, mean[j])) / (batch as real)
                  else old(variance[j]) + SquareDeviation(rows, i, j, mean[j])
      invariant forall j :: width <= j < variance.Length ==> variance[j] == old(variance[j])
    {
      VarianceRow(rows, i, batch, width, mean, variance);
      i := i + 1;
    }
  }

  /** Rows 0 .. n-1 of temp_vectors hold the normalised inputs
      (x - mean) / sqrt(variance + epsilon), and the same cells of outputs
      hold temp * gamma + beta, in every column below width. */
  ghost predicate NormalizedRows(rows: seq<seq<real>>, n: int, width: nat, gamma: seq<real>, beta: seq<real>,
                                 mean: seq<real>, variance: seq<real>, temp: array2<real>, outputs: array2<real>,
                                 epsilon: real, sqrt: real -> real)
    reads temp, outputs
  {
    && Rows(rows, n, width) && width <= |gamma| && width <= |beta| && width <= |mean| && width <= |variance|
    && n <= temp.Length0 && width <= temp.Length1 && n <= outputs.Length0 && width <= outputs.Length1
    && (forall i, j :: 0 <= i < n && 0 <= j < width ==>
          temp[i, j] == Normalized(rows[i][j], mean[j], variance[j], epsilon, sqrt))
    && (forall i, j :: 0 <= i < n && 0 <= j < width ==> outputs[i, j] == temp[i, j] * gamma[j] + beta[j])
  }

  /** The body of the scale-and-shift loop at (i, j). */
  method NormalizeCell(x: real, i: int, j: int, gamma: real, beta: real, mean: real, variance: real,
                       temp: array2<real>, outputs: array2<real>, epsilon: real, sqrt: real -> real)
    requires 0 <= i < temp.Length0 && 0 <= j < temp.Length1 && 0 <= i < outputs.Length0 && 0 <= j < outputs.Length1
    requires temp != outputs
    modifies temp, outputs
    ensures temp[i, j] == Normalized(x, mean, variance, epsilon, sqrt)
    ensures outputs[i, j] == temp[i, j] * gamma + beta
    ensures forall a, b :: 0 <= a < temp.Length0 && 0 <= b < temp.Length1 && (a, b) != (i, j) ==>
      temp[a, b] == old(temp[a, b])
    ensures forall a, b :: 0 <= a < outputs.Length0 && 0 <= b < outputs.Length1 && (a, b) != (i, j) ==>
      outputs[a, b] == old(outputs[a, b])
  {
    temp[i, j] := FloatDiv(x - mean, sqrt(variance + epsilon));
    outputs[i, j] := temp[i, j] * gamma + beta;
  }

  /** One row of the scale-and-shift loop of normalization.c:139-144. */
  method NormalizeRow(rows: seq<seq<real>>, i: int, batch: int, width: nat, gamma: seq<real>, beta: seq<real>,
                      mean: seq<real>, variance: seq<real>, temp: array2<real>, outputs: array2<real>,
                      epsilon: real, sqrt: real -> real)
    requires Rows(rows, batch, width) && 0 <= i < batch
    requires width <= |gamma| && width <= |beta| && width <= |mean| && width <= |variance|
    requires batch <= temp.Length0 && width <= temp.Length1 && batch <= outputs.Length0 && width <= outputs.Length1
    requires temp != outputs
    modifies temp, outputs
    ensures forall j :: 0 <= j < width ==> temp[i, j] == Normalized(rows[i][j], mean[j], variance[j], epsilon, sqrt)
    ensures forall j :: 0 <= j < width ==> outputs[i, j] == temp[i, j] * gamma[j] + beta[j]
    ensures forall a, b :: 0 <= a < temp.Length0 && 0 <= b < temp.Length1 && !(a == i && b < width) ==>
      temp[a, b] == old(temp[a, b])
    ensures forall a, b :: 0 <= a < outputs.Length0 && 0 <= b < outputs.Length1 && !(a == i && b < width) ==>
      outputs[a, b] == old(outputs[a, b])
  {
    var j := 0;
    while j < width
      invariant 0 <= j <= width
      invariant forall k :: 0 <= k < j ==> temp[i, k] == Normalized(rows[i][k], mean[k], variance[k], epsilon, sqrt)
      invariant forall k :: 0 <= k < j ==> outputs[i, k] == temp[i, k] * gamma[k] + beta[k]
      invariant forall a, b :: 0 <= a < temp.Length0 && 0 <= b < temp.Length1 && !(a == i && b < j) ==>
        temp[a, b] == old(temp[a, b])
      invariant forall a, b :: 0 <= a < outputs.Length0 && 0 <= b < outputs.Length1 && !(a == i && b < j) ==>
        outputs[a, b] == old(outputs[a, b])
    {
      NormalizeCell(rows[i][j], i, j, gamma[j], beta[j], mean[j], variance[j], temp, outputs, epsilon, sqrt);
      j := j + 1;
    }
  }

  method NormalizePass(rows: seq<seq<real>>, batch: int, width: nat, gamma: seq<real>, beta: seq<real>,
                       mean: seq<real>, variance: seq<real>, temp: array2<real>, outputs: array2<real>,
                       epsilon: real, sqrt: real -> real)
    requires Rows(rows, batch, width)
    requires width <= |gamma| && width <= |beta| && width <= |mean| && width <= |variance|
    requires batch <= temp.Length0 && width <= temp.Length1 && batch <= outputs.Length0 && width <= outputs.Length1
    requires temp != outputs
    modifies temp, outputs
    ensures NormalizedRows(rows, batch, width, gamma, beta, mean, variance, temp, outputs, epsilon, sqrt)
    ensures forall a, b :: 0 <= a < temp.Length0 && 0 <= b < temp.Length1 && !(a < batch && b < width) ==>
      temp[a, b] == old(temp[a, b])
    ensures forall a, b :: 0 <= a < outputs.Length0 && 0 <= b < outputs.Length1 && !(a < batch && b < width) ==>
      outputs[a, b] == old(outputs[a, b])
  {
    var i := 0;
    while i < batch
      invariant 0 <= i <= batch
      invariant forall a, j :: 0 <= a < i && 0 <= j < width ==>
        temp[a, j] == Normalized(rows[a][j], mean[j], variance[j], epsilon, sqrt)
      invariant forall a, j :: 0 <= a < i && 0 <= j < width ==> outputs[a, j] == temp[a, j] * gamma[j] + beta[j]
      invariant forall a, b :: 0 <= a < temp.Length0 && 0 <= b < temp.Length1 && !(a < i && b < width) ==>
        temp[a, b] == old(temp[a, b])
      invariant forall a, b :: 0 <= a < outputs.Length0 && 0 <= b < outputs.Length1 && !(a < i && b < width) ==>
        outputs[a, b] == old(outputs[a, b])
    {
      NormalizeRow(rows, i, batch, width, gamma, beta, mean, variance, temp, outputs, epsilon, sqrt);
      i := i + 1;
    }
  }

  /** `batch_normalization_feed_forward`. With mean and var zero on entry
      (as the C documentation demands), mean[j] ends as BatchMean and variance[j]
      as BatchVariance; each of the first batch_size rows of temp_vectors
      holds the normalised inputs and the same row of outputs holds
      temp*gamma + beta. Nothing else changes. */
  method BatchNormFeedForward(batch: int, rows: seq<seq<real>>, temp: array2<real>, width: nat,
                              gamma: array<real>, beta: array<real>, mean: array<real>, variance: array<real>,
                              outputs: array2<real>, epsilon: real, sqrt: real -> real)
    requires Rows(rows, batch, width)
    requires width <= gamma.Length && width <= beta.Length && width <= mean.Length && width <= variance.Length
    requires batch <= temp.Length0 && width <= temp.Length1 && batch <= outputs.Length0 && width <= outputs.Length1
    requires mean != variance && temp != outputs
    requires gamma != mean && gamma != variance && beta != mean && beta != variance
    modifies mean, variance, temp, outputs
    ensures forall j :: 0 <= j < width ==>
      mean[j] == if batch >= 1 then (old(mean[j]) + ColumnSum(rows, batch, j)) / (batch as real) else old(mean[j])
    ensures forall j :: 0 <= j < width ==>
      variance[j] == if batch >= 1 then (old(variance[j]) + SquareDeviation(rows, batch, j, mean[j])) / (batch as real)
                else old(variance[j])
    ensures forall j :: width <= j < mean.Length ==> mean[j] == old(mean[j])
    ensures forall j :: width <= j < variance.Length ==> variance[j] == old(variance[j])
    ensures NormalizedRows(rows, batch, width, gamma[..], beta[..], mean[..], variance[..], temp, outputs, epsilon, sqrt)
    ensures forall a, b :: 0 <= a < temp.Length0 && 0 <= b < temp.Length1 && !(a < batch && b < width) ==>
      temp[a, b] == old(temp[a, b])
    ensures forall a, b :: 0 <= a < outputs.Length0 && 0 <= b < outputs.Length1 && !(a < batch && b < width) ==>
      outputs[a, b] == old(outputs[a, b])
  {
    MeanPass(rows, batch, width, mean);
    VariancePass(rows, batch, width, mean[..], variance);
    NormalizePass(rows, batch, width, gamma[..], beta[..], mean[..], variance[..], temp, outputs, epsilon, sqrt);
  }

  /** One row of the gamma/beta loop of normalization.c:174-181. */
  method GammaBetaRow(i: int, batch: int, rows: seq<seq<real>>, tempVectors: seq<seq<real>>, width: nat,
                      gamma: seq<real>, mean: seq<real>, outputsError: seq<seq<real>>,
                      gammaError: array<real>, betaError: array<real>, tempVectorsError: array2<real>,
                      tempArray: array<real>)
    requires Rows(rows, batch, width) && Rows(tempVectors, batch, width) && Rows(outputsError, batch, width)
    requires 0 <= i < batch
    requires width <= |gamma| && width <= |mean|
    requires width <= gammaError.Length && width <= betaError.Length && width <= tempArray.Length
    requires batch <= tempVectorsError.Length0 && width <= tempVectorsError.Length1
    requires gammaError != betaError && gammaError != tempArray && betaError != tempArray
    modifies gammaError, betaError, tempVectorsError, tempArray
    ensures forall j :: 0 <= j < width ==> gammaError[j] == old(gammaError[j]) + outputsError[i][j] * tempVectors[i][j]
    ensures forall j :: 0 <= j < width ==> betaError[j] == old(betaError[j]) + outputsError[i][j]
    ensures forall j :: 0 <= j < width ==> tempVectorsError[i, j] == outputsError[i][j] * gamma[j]
    ensures forall j :: 0 <= j < width ==> tempArray[j] == old(tempArray[j]) + (rows[i][j] - mean[j])
    ensures forall j :: width <= j < gammaError.Length ==> gammaError[j] == old(gammaError[j])
    ensures forall j :: width <= j < betaError.Length ==> betaError[j] == old(betaError[j])
    ensures forall j :: width <= j < tempArray.Length ==> tempArray[j] == old(tempArray[j])
    ensures forall a, b :: 0 <= a < tempVectorsError.Length0 && 0 <= b < tempVectorsError.Length1 && !(a == i && b < width) ==>
      tempVectorsError[a, b] == old(tempVectorsError[a, b])
  {
    var j := 0;
    while j < width
      invariant 0 <= j <= width
      invariant forall k :: 0 <= k < j ==> gammaError[k] == old(gammaError[k]) + outputsError[i][k] * tempVectors[i][k]
      invariant forall k :: 0 <= k < j ==> betaError[k] == old(betaError[k]) + outputsError[i][k]
      invariant forall k :: 0 <= k < j ==> tempVectorsError[i, k] == outputsError[i][k] * gamma[k]
      invariant forall k :: 0 <= k < j ==> tempArray[k] == old(tempArray[k]) + (rows[i][k] - mean[k])
      invariant forall k :: j <= k < gammaError.Length ==> gammaError[k] == old(gammaError[k])
      invariant forall k :: j <= k < betaError.Length ==> betaError[k] == old(betaError[k])
      invariant forall k :: j <= k < tempArray.Length ==> tempArray[k] == old(tempArray[k])
      invariant forall a, b :: 0 <= a < tempVectorsError.Length0 && 0 <= b < tempVectorsError.Length1 && !(a == i && b < j) ==>
        tempVectorsError[a, b] == old(tempVectorsError[a, b])
    {
      gammaError[j] := gammaError[j] + outputsError[i][j] * tempVectors[i][j];
      betaError[j] := betaError[j] + outputsError[i][j];
      tempVectorsError[i, j] := outputsError[i][j] * gamma[j];
      tempArray[j] := tempArray[j] + (rows[i][j] - mean[j]);
      j := j + 1;
    }
  }

  /** The gamma/beta sums after rows 0 .. i-1: for each feature j below
      width, the accumulators hold their starting values plus the sums of
      GammaBetaSumsAt. */
  ghost predicate GammaBetaSums(rows: seq<seq<real>>, tempVectors: seq<seq<real>>, outputsError: seq<seq<real>>,
                                i: int, width: nat, mean: seq<real>,
                                gammaStart: seq<real>, gammaNow: seq<real>, betaStart: seq<real>, betaNow: seq<real>,
                                tempStart: seq<real>, tempNow: seq<real>)
  {
    width <= |mean| && width <= |gammaStart| && width <= |gammaNow| && width <= |betaStart| &&
    width <= |betaNow| && width <= |tempStart| && width <= |tempNow| &&
    forall j :: 0 <= j < width ==>
      GammaBetaSumsAt(rows, tempVectors, outputsError, i, j, mean[j], gammaStart[j], gammaNow[j],
                      betaStart[j], betaNow[j], tempStart[j], tempNow[j])
  }

  /** gamma_error[j] gains the products output_error*x_hat, beta_error[j]
      the output errors and temp_array[j] the deviations from mu. */
  ghost predicate GammaBetaSumsAt(rows: seq<seq<real>>, tempVectors: seq<seq<real>>, outputsError: seq<seq<real>>,
                                  i: int, j: int, mu: real, gammaStart: real, gammaNow: real,
                                  betaStart: real, betaNow: real, tempStart: real, tempNow: real)
  {
    HasColumn(outputsError, i, j) && HasColumn(tempVectors, i, j) && HasColumn(rows, i, j) &&
    gammaNow == gammaStart + ProductSum(outputsError, tempVectors, i, j) &&
    betaNow == betaStart + ColumnSum(outputsError, i, j) &&
    tempNow == tempStart + CenteredSum(rows, i, j, mu)
  }

  /** Row i added to every accumulator gives the sums after rows 0 .. i. */
  lemma GammaBetaSumsNext(rows: seq<seq<real>>, tempVectors: seq<seq<real>>, outputsError: seq<seq<real>>,
                          batch: int, width: nat, i: int, mean: seq<real>,
                          gammaStart: seq<real>, gammaBefore: seq<real>, gammaAfter: seq<real>,
                          betaStart: seq<real>, betaBefore: seq<real>, betaAfter: seq<real>,
                          tempStart: seq<real>, tempBefore: seq<real>, tempAfter: seq<real>)
    requires Rows(rows, batch, width) && Rows(tempVectors, batch, width) && Rows(outputsError, batch, width)
    requires 0 <= i < batch
    requires GammaBetaSums(rows, tempVectors, outputsError, i, width, mean, gammaStart, gammaBefore,
                           betaStart, betaBefore, tempStart, tempBefore)
    requires width <= |gammaAfter| && width <= |betaAfter| && width <= |tempAfter|
    requires forall j :: 0 <= j < width ==> gammaAfter[j] == gammaBefore[j] + outputsError[i][j] * tempVectors[i][j]
    requires forall j :: 0 <= j < width ==> betaAfter[j] == betaBefore[j] + outputsError[i][j]
    requires forall j :: 0 <= j < width ==> tempAfter[j] == tempBefore[j] + (rows[i][j] - mean[j])
    ensures GammaBetaSums(rows, tempVectors, outputsError, i + 1, width, mean, gammaStart, gammaAfter,
                          betaStart, betaAfter, tempStart, tempAfter)
  {
    forall j | 0 <= j < width
      ensures GammaBetaSumsAt(rows, tempVectors, outputsError, i + 1, j, mean[j], gammaStart[j], gammaAfter[j],
                              betaStart[j], betaAfter[j], tempStart[j], tempAfter[j])
    {
      RowsHaveColumn(outputsError, i + 1, width, j);
      RowsHaveColumn(tempVectors, i + 1, width, j);
      RowsHaveColumn(rows, i + 1, width, j);
    }
  }

  /** The gamma/beta part of `batch_normalization_back_prop`: gamma_error
      and beta_error accumulate the gradient of the outputs with respect to
      gamma and beta, temp_vectors_error is overwritten with
      output_error*gamma, and temp_array accumulates the deviations from
      mean (zero for the forward pass's mean, by CenteredAboutMean). */
  method BatchNormGammaBetaError(batch: int, rows: seq<seq<real>>, tempVectors: seq<seq<real>>, width: nat,
                                 gamma: seq<real>, mean: seq<real>, outputsError: seq<seq<real>>,
                                 gammaError: array<real>, betaError: array<real>, tempVectorsError: array2<real>,
                                 tempArray: array<real>)
    requires Rows(rows, batch, width) && Rows(tempVectors, batch, width) && Rows(outputsError, batch, width)
    requires width <= |gamma| && width <= |mean|
    requires width <= gammaError.Length && width <= betaError.Length && width <= tempArray.Length
    requires batch <= tempVectorsError.Length0 && width <= tempVectorsError.Length1
    requires gammaError != betaError && gammaError != tempArray && betaError != tempArray
    modifies gammaError, betaError, tempVectorsError, tempArray
    ensures forall j :: 0 <= j < width ==> gammaError[j] == old(gammaError[j]) + ProductSum(outputsError, tempVectors, batch, j)
    ensures forall j :: 0 <= j < width ==> betaError[j] == old(betaError[j]) + ColumnSum(outputsError, batch, j)
    ensures forall j :: 0 <= j < width ==> tempArray[j] == old(tempArray[j]) + CenteredSum(rows, batch, j, mean[j])
    ensures forall i, j :: 0 <= i < batch && 0 <= j < width ==> tempVectorsError[i, j] == outputsError[i][j] * gamma[j]
    ensures forall j :: width <= j < gammaError.Length ==> gammaError[j] == old(gammaError[j])
    ensures forall j :: width <= j < betaError.Length ==> betaError[j] == old(betaError[j])
    ensures forall j :: width <= j < tempArray.Length ==> tempArray[j] == old(tempArray[j])
    ensures forall a, b :: 0 <= a < tempVectorsError.Length0 && 0 <= b < tempVectorsError.Length1 && !(a < batch && b < width) ==>
      tempVectorsError[a, b] == old(tempVectorsError[a, b])
  {
    var i := 0;
    while i < batch
      invariant 0 <= i <= batch
      invariant GammaBetaSums(rows, tempVectors, outputsError, i, width, mean, old(gammaError[..]), gammaError[..],
                              old(betaError[..]), betaError[..], old(tempArray[..]), tempArray[..])
      invariant forall a, j :: 0 <= a < i && 0 <= j < width ==> tempVectorsError[a, j] == outputsError[a][j] * gamma[j]
      invariant forall j :: width <= j < gammaError.Length ==> gammaError[j] == old(gammaError[j])
      invariant forall j :: width <= j < betaError.Length ==> betaError[j] == old(betaError[j])
      invariant forall j :: width <= j < tempArray.Length ==> tempArray[j] == old(tempArray[j])
      invariant forall a, b :: 0 <= a < tempVectorsError.Length0 && 0 <= b < tempVectorsError.Length1 && !(a < i && b < width) ==>
        tempVectorsError[a, b] == old(tempVectorsError[a, b])
    {
      ghost var gammaBefore, betaBefore, tempBefore := gammaError[..], betaError[..], tempArray[..];
      label BeforeRow:
      GammaBetaRow(i, batch, rows, tempVectors, width, gamma, mean, outputsError, gammaError, betaError,
                   tempVectorsError, tempArray);
      forall a, j | 0 <= a < i + 1 && 0 <= j < width
        ensures tempVectorsError[a, j] == outputsError[a][j] * gamma[j]
      {
        if a < i {
          assert tempVectorsError[a, j] == old@BeforeRow(tempVectorsError[a, j]);
        }
      }
      GammaBetaSumsNext(rows, tempVectors, outputsError, batch, width, i, mean,
                        old(gammaError[..]), gammaBefore, gammaError[..], old(betaError[..]), betaBefore, betaError[..],
                        old(tempArray[..]), tempBefore, tempArray[..]);
      i := i + 1;
    }
    forall j | 0 <= j < width
      ensures gammaError[j] == old(gammaError[j]) + ProductSum(outputsError, tempVectors, batch, j)
      ensures betaError[j] == old(betaError[j]) + ColumnSum(outputsError, batch, j)
      ensures tempArray[j] == old(tempArray[j]) + CenteredSum(rows, batch, j, mean[j])
    {
      assert GammaBetaSumsAt(rows, tempVectors, outputsError, batch, j, mean[j], old(gammaError[..])[j], gammaError[..][j],
                             old(betaError[..])[j], betaError[..][j], old(tempArray[..])[j], tempArray[..][j]);
    }
  }

  /** The number of rows k mini-batches of m rows cover: k*m, written as a
      repeated sum so that proofs about batches stay linear. */
  function Span(k: nat, m: nat): nat
  {
    if k == 0 then 0 else Span(k - 1, m) + m
  }

  lemma {:induction false} SpanIsProduct(k: nat, m: nat)
    ensures Span(k, m) == k * m
    decreases k
  {
    if k > 0 {
      SpanIsProduct(k - 1, m);
      assert k * m == (k - 1) * m + m;
    }
  }

  lemma {:induction false} SpanMonotone(b: nat, k: nat, m: nat)
    requires b <= k
    ensures Span(b, m) <= Span(k, m)
    decreases k
  {
    if b < k {
      SpanMonotone(b, k - 1, m);
    }
  }

  /** Batch b ends before batch k starts exactly when b < k. */
  lemma {:induction false} SpanOrder(b: nat, k: nat, m: nat)
    requires m >= 1
    ensures b < k <==> Span(b, m) < Span(k, m)
    decreases b
  {
    if b > 0 && k > 0 {
      SpanOrder(b - 1, k - 1, m);
    }
  }

  /** The rows of mini-batch b: rows b*m .. b*m+m-1, or, with `sameRows`,
      rows 0 .. m-1 whatever b is, as the loop of normalization.c:222-228
      passes them. */
  function Batch(rows: seq<seq<real>>, b: nat, m: nat, sameRows: bool): seq<seq<real>>
    requires Span(b + 1, m) <= |rows|
  {
    if sameRows then rows else rows[Span(b, m)..]
  }

  /** k mini-batches of m rows each have feature j. */
  predicate Batched(rows: seq<seq<real>>, k: nat, m: nat, j: int)
  {
    m >= 1 && HasColumn(rows, Span(k, m), j)
  }

  lemma BatchHasColumn(rows: seq<seq<real>>, b: nat, k: nat, m: nat, j: int, sameRows: bool)
    requires Batched(rows, k, m, j) && b < k
    ensures Span(b + 1, m) <= |rows|
    ensures HasColumn(Batch(rows, b, m, sameRows), m, j)
  {
    SpanMonotone(b + 1, k, m);
    SpanMonotone(1, b + 1, m);
    assert Span(1, m) == m;
    if !sameRows {
      var batch := rows[Span(b, m)..];
      forall i | 0 <= i < m
        ensures j < |batch[i]|
      {
        assert batch[i] == rows[Span(b, m) + i];
      }
    }
  }

  /** The running sum of the per-batch means after k batches. */
  function MeanTotal(rows: seq<seq<real>>, k: nat, m: nat, j: int, sameRows: bool): real
    requires Batched(rows, k, m, j)
    decreases k
  {
    if k == 0 then 0.0
    else
      BatchHasColumn(rows, k - 1, k, m, j, sameRows);
      MeanTotal(rows, k - 1, m, j, sameRows) + BatchMean(Batch(rows, k - 1, m, sameRows), m, j)
  }

  /** The running sum of the per-batch population variances after k
      batches. */
  function VarianceTotal(rows: seq<seq<real>>, k: nat, m: nat, j: int, sameRows: bool): real
    requires Batched(rows, k, m, j)
    decreases k
  {
    if k == 0 then 0.0
    else
      BatchHasColumn(rows, k - 1, k, m, j, sameRows);
      VarianceTotal(rows, k - 1, m, j, sameRows) + BatchVariance(Batch(rows, k - 1, m, sameRows), m, j)
  }

  lemma {:induction false} MeanTotalSameRows(rows: seq<seq<real>>, k: nat, m: nat, j: int)
    requires Batched(rows, k, m, j) && k >= 1
    ensures HasColumn(rows, m, j)
    ensures MeanTotal(rows, k, m, j, true) == (k as real) * BatchMean(rows, m, j)
    decreases k
  {
    BatchHasColumn(rows, 0, k, m, j, true);
    if k > 1 {
      MeanTotalSameRows(rows, k - 1, m, j);
    }
  }

  lemma {:induction false} ColumnSumSplit(rows: seq<seq<real>>, a: int, c: int, j: int)
    requires 0 <= a && 0 <= c && HasColumn(rows, a + c, j)
    ensures HasColumn(rows[a..], c, j)
    ensures ColumnSum(rows, a + c, j) == ColumnSum(rows, a, j) + ColumnSum(rows[a..], c, j)
    decreases c
  {
    assert HasColumn(rows[a..], c, j) by {
      forall i | 0 <= i < c
        ensures j < |rows[a..][i]|
      {
        assert rows[a..][i] == rows[a + i];
      }
    }
    if c > 0 {
      ColumnSumSplit(rows, a, c - 1, j);
      assert rows[a..][c - 1] == rows[a + c - 1];
    }
  }

  /** One batch more: the running total of means gains the mean of rows
      Span(k-1) .. Span(k)-1, whose m-fold is that slice's column sum. */
  lemma MeanTotalStep(rows: seq<seq<real>>, k: nat, m: nat, j: int)
    requires Batched(rows, k, m, j) && k >= 1
    ensures Batched(rows, k - 1, m, j) && HasColumn(rows[Span(k - 1, m)..], m, j)
    ensures MeanTotal(rows, k, m, j, false) ==
      MeanTotal(rows, k - 1, m, j, false) + BatchMean(rows[Span(k - 1, m)..], m, j)
    ensures ColumnSum(rows, Span(k, m), j) ==
      ColumnSum(rows, Span(k - 1, m), j) + ColumnSum(rows[Span(k - 1, m)..], m, j)
  {
    BatchHasColumn(rows, k - 1, k, m, j, false);
    ColumnSumSplit(rows, Span(k - 1, m), m, j);
  }

  /** The sum of the k batches' column sums. */
  function SumTotal(rows: seq<seq<real>>, k: nat, m: nat, j: int): real
    requires Batched(rows, k, m, j)
    decreases k
  {
    if k == 0 then 0.0
    else
      BatchHasColumn(rows, k - 1, k, m, j, false);
      SumTotal(rows, k - 1, m, j) + ColumnSum(rows[Span(k - 1, m)..], m, j)
  }

  /** Consecutive batches cover the rows: their column sums add up to the
      column sum of the first k*m rows. */
  lemma {:induction false} SumTotalIsColumnSum(rows: seq<seq<real>>, k: nat, m: nat, j: int)
    requires Batched(rows, k, m, j)
    ensures SumTotal(rows, k, m, j) == ColumnSum(rows, Span(k, m), j)
    decreases k
  {
    if k > 0 {
      MeanTotalStep(rows, k, m, j);
      SumTotalIsColumnSum(rows, k - 1, m, j);
    }
  }

  lemma AddQuotients(x: real, y: real, m: int)
    requires m >= 1
    ensures x / (m as real) + y / (m as real) == (x + y) / (m as real)
  {
  }

  /** The batch means of consecutive batches add up to their summed column
      sums over m. */
  lemma {:induction false} MeanTotalIsQuotient(rows: seq<seq<real>>, k: nat, m: nat, j: int)
    requires Batched(rows, k, m, j)
    ensures MeanTotal(rows, k, m, j, false) == SumTotal(rows, k, m, j) / (m as real)
    decreases k
  {
    if k > 0 {
      MeanTotalStep(rows, k, m, j);
      MeanTotalIsQuotient(rows, k - 1, m, j);
      AddQuotients(SumTotal(rows, k - 1, m, j), ColumnSum(rows[Span(k - 1, m)..], m, j), m);
    }
  }


  /** As written, every batch is rows 0 .. m-1, so the final mean is the
      mean of the first mini-batch alone, whatever k is. */
  lemma FinalMeanSameRows(rows: seq<seq<real>>, k: nat, m: nat, j: int)
    requires Batched(rows, k, m, j) && k >= 1
    ensures HasColumn(rows, m, j)
    ensures FloatDiv(MeanTotal(rows, k, m, j, true), k as real) == BatchMean(rows, m, j)
  {
    MeanTotalSameRows(rows, k, m, j);
  }

  /** Four one-feature vectors 0, 0, 2, 2 in mini-batches of two: the loop
      as written reports a final mean of 0, while the mean of the vectors
      is 1. */
  lemma SameRowsCounterexample()
    ensures Batched([[0.0], [0.0], [2.0], [2.0]], 2, 2, 0)
    ensures FloatDiv(MeanTotal([[0.0], [0.0], [2.0], [2.0]], 2, 2, 0, true), 2.0) == 0.0
    ensures FloatDiv(MeanTotal([[0.0], [0.0], [2.0], [2.0]], 2, 2, 0, false), 2.0) == 1.0
    ensures ColumnSum([[0.0], [0.0], [2.0], [2.0]], 4, 0) / 4.0 == 1.0
  {
    var rows := [[0.0], [0.0], [2.0], [2.0]];
    assert Span(2, 2) == 4;
    FinalMeanSameRows(rows, 2, 2, 0);
    FinalMeanIsOverallMean(rows, 2, 2, 0);
  }

  /** With batch b taken from rows b*m .. b*m+m-1, the average of the k
      batch means is the mean of all k*m vectors. */
  lemma FinalMeanIsOverallMean(rows: seq<seq<real>>, k: nat, m: nat, j: int)
    requires Batched(rows, k, m, j) && k >= 1
    ensures Span(k, m) == k * m && k * m >= 1
    ensures FloatDiv(MeanTotal(rows, k, m, j, false), k as real) == ColumnSum(rows, Span(k, m), j) / ((k * m) as real)
  {
    SpanIsProduct(k, m);
    MeanTotalIsQuotient(rows, k, m, j);
    SumTotalIsColumnSum(rows, k, m, j);
    QuotientOfQuotient(ColumnSum(rows, Span(k, m), j), k, m);
  }

  lemma QuotientOfQuotient(c: real, k: int, m: int)
    requires k >= 1 && m >= 1
    ensures k * m >= 1
    ensures FloatDiv(c / (m as real), k as real) == c / ((k * m) as real)
  {
    assert (k * m) as real == (k as real) * (m as real);
  }

  /** The unbiased-variance correction of normalization.c:232: m/(m-1)
      times a population variance (the divisor is zero when m is 1, and
      the model maps that quotient to 0). */
  function Unbiased(v: real, m: nat): real
  {
    FloatDiv(m as real, (m - 1) as real) * v
  }

  /** The Bessel correction: over a single mini-batch (k = 1) of m >= 2
      vectors, m/(m-1) times the batch's population variance is the sum of
      squared deviations divided by m - 1. */
  lemma FinalVarianceIsBessel(rows: seq<seq<real>>, m: nat, j: int)
    requires Batched(rows, 1, m, j) && m >= 2
    ensures Unbiased(VarianceTotal(rows, 1, m, j, false), m) ==
      SquareDeviation(rows, m, j, BatchMean(rows, m, j)) / ((m - 1) as real)
  {
    assert Span(1, m) == m;
    assert Batch(rows, 0, m, false) == rows;
    var d := SquareDeviation(rows, m, j, BatchMean(rows, m, j));
    assert VarianceTotal(rows, 1, m, j, false) == d / (m as real);
    BesselArithmetic(d, m);
  }

  lemma BesselArithmetic(d: real, m: int)
    requires m >= 2
    ensures FloatDiv(m as real, (m - 1) as real) * (d / (m as real)) == d / ((m - 1) as real)
  {
    var c := FloatDiv(m as real, (m - 1) as real);
    assert c == (m as real) / ((m - 1) as real);
    assert c * (d / (m as real)) == d / ((m - 1) as real);
  }

  /** The totals after batch b+1 add batch b's mean and variance. */
  lemma TotalsStep(rows: seq<seq<real>>, b: nat, k: nat, m: nat, j: int, sameRows: bool)
    requires Batched(rows, k, m, j) && b < k
    ensures Batched(rows, b, m, j) && Batched(rows, b + 1, m, j)
    ensures Span(b + 1, m) <= |rows| && HasColumn(Batch(rows, b, m, sameRows), m, j)
    ensures MeanTotal(rows, b + 1, m, j, sameRows) ==
      MeanTotal(rows, b, m, j, sameRows) + BatchMean(Batch(rows, b, m, sameRows), m, j)
    ensures VarianceTotal(rows, b + 1, m, j, sameRows) ==
      VarianceTotal(rows, b, m, j, sameRows) + BatchVariance(Batch(rows, b, m, sameRows), m, j)
  {
    SpanMonotone(b + 1, k, m);
    BatchHasColumn(rows, b, k, m, j, sameRows);
  }

  /** The running totals after b batches: for every feature j below width,
      the arrays hold their starting value plus the sum over those batches
      of the batch means (resp. population variances). */
  ghost predicate TotalsAfter(rows: seq<seq<real>>, b: nat, m: nat, width: int, sameRows: bool,
                              meanStart: seq<real>, meanNow: seq<real>, varStart: seq<real>, varNow: seq<real>)
  {
    width <= |meanStart| && width <= |meanNow| && width <= |varStart| && width <= |varNow| &&
    forall j :: 0 <= j < width ==> TotalsAt(rows, b, m, j, sameRows, meanStart[j], meanNow[j], varStart[j], varNow[j])
  }

  /** TotalsAfter for the one feature j. */
  ghost predicate TotalsAt(rows: seq<seq<real>>, b: nat, m: nat, j: int, sameRows: bool,
                           meanStart: real, meanNow: real, varStart: real, varNow: real)
  {
    Batched(rows, b, m, j) &&
    meanNow == meanStart + MeanTotal(rows, b, m, j, sameRows) &&
    varNow == varStart + VarianceTotal(rows, b, m, j, sameRows)
  }

  /** Batch b of k fits inside the first n rows, and its m rows have at
      least `width` features. */
  lemma BatchRows(rows: seq<seq<real>>, n: nat, b: nat, k: nat, m: nat, width: int, sameRows: bool)
    requires Rows(rows, n, width) && m >= 1 && b < k && Span(k, m) <= n
    ensures Span(b + 1, m) <= n && Rows(rows, Span(b + 1, m), width)
    ensures Rows(Batch(rows, b, m, sameRows), m, width)
  {
    SpanMonotone(b + 1, k, m);
    SpanMonotone(1, b + 1, m);
    assert Span(1, m) == m;
    if !sameRows {
      var batch := Batch(rows, b, m, sameRows);
      forall x | 0 <= x < m
        ensures width <= |batch[x]|
      {
        assert batch[x] == rows[Span(b, m) + x];
      }
    }
  }

  /** Adding batch b's mean and variance to the totals after b batches
      gives the totals after b+1. */
  lemma TotalsAfterStep(rows: seq<seq<real>>, b: nat, m: nat, width: int, sameRows: bool,
                        meanStart: seq<real>, meanBefore: seq<real>, meanAfter: seq<real>,
                        varStart: seq<real>, varBefore: seq<real>, varAfter: seq<real>)
    requires m >= 1 && Span(b + 1, m) <= |rows| && Rows(rows, Span(b + 1, m), width)
    requires TotalsAfter(rows, b, m, width, sameRows, meanStart, meanBefore, varStart, varBefore)
    requires width <= |meanAfter| && width <= |varAfter| && Rows(Batch(rows, b, m, sameRows), m, width)
    requires forall j :: 0 <= j < width ==> meanAfter[j] == meanBefore[j] + BatchMean(Batch(rows, b, m, sameRows), m, j)
    requires forall j :: 0 <= j < width ==> varAfter[j] == varBefore[j] + BatchVariance(Batch(rows, b, m, sameRows), m, j)
    ensures TotalsAfter(rows, b + 1, m, width, sameRows, meanStart, meanAfter, varStart, varAfter)
  {
    forall j | 0 <= j < width
      ensures TotalsAt(rows, b + 1, m, j, sameRows, meanStart[j], meanAfter[j], varStart[j], varAfter[j])
    {
      RowsHaveColumn(rows, Span(b + 1, m), width, j);
      RowsHaveColumn(Batch(rows, b, m, sameRows), m, width, j);
      TotalsStepAt(rows, b, m, j, sameRows, meanStart[j], meanBefore[j], meanAfter[j],
                   varStart[j], varBefore[j], varAfter[j]);
    }
  }

  /** What final_mean and final_var hold after k batches of m rows: for
      each feature j below width, the average of the k batch means, and
      m/(m-1) times the average of the k population variances. */
  ghost predicate Finals(rows: seq<seq<real>>, k: nat, m: nat, width: int, sameRows: bool,
                         finalMean: seq<real>, finalVar: seq<real>)
  {
    width <= |finalMean| && width <= |finalVar| &&
    forall j :: 0 <= j < width ==>
      Batched(rows, k, m, j) &&
      finalMean[j] == FloatDiv(MeanTotal(rows, k, m, j, sameRows), k as real) &&
      finalVar[j] == FloatDiv(Unbiased(VarianceTotal(rows, k, m, j, sameRows), m), k as real)
  }

  /** Totals gathered from zero, then averaged as normalization.c:230-233
      does, are the finals. */
  lemma FinalsFromTotals(rows: seq<seq<real>>, k: nat, m: nat, width: nat, sameRows: bool, zeros: seq<real>,
                         sumMean: seq<real>, sumVar: seq<real>, finalMean: seq<real>, finalVar: seq<real>)
    requires TotalsAfter(rows, k, m, width, sameRows, zeros, sumMean, zeros, sumVar)
    requires forall i :: 0 <= i < width ==> zeros[i] == 0.0
    requires width <= |finalMean| && width <= |finalVar|
    requires forall i :: 0 <= i < width ==> finalMean[i] == FloatDiv(sumMean[i], k as real)
    requires forall i :: 0 <= i < width ==>
      finalVar[i] == FloatDiv(Unbiased(sumVar[i], m), k as real)
    ensures Finals(rows, k, m, width, sameRows, finalMean[..width], finalVar[..width])
  {
    forall j | 0 <= j < width
      ensures Batched(rows, k, m, j)
      ensures finalMean[..width][j] == FloatDiv(MeanTotal(rows, k, m, j, sameRows), k as real)
      ensures finalVar[..width][j] ==
        FloatDiv(Unbiased(VarianceTotal(rows, k, m, j, sameRows), m), k as real)
    {
      assert TotalsAt(rows, k, m, j, sameRows, zeros[j], sumMean[j], zeros[j], sumVar[j]);
      assert sumMean[j] == MeanTotal(rows, k, m, j, sameRows);
      assert sumVar[j] == VarianceTotal(rows, k, m, j, sameRows);
    }
  }

  lemma RowsHaveColumn(rows: seq<seq<real>>, n: int, width: int, j: int)
    requires Rows(rows, n, width) && 0 <= j < width
    ensures HasColumn(rows, n, j)
  {
  }

  /** TotalsStep for one feature j, on the values the arrays hold. */
  lemma TotalsStepAt(rows: seq<seq<real>>, b: nat, m: nat, j: int, sameRows: bool,
                     meanStart: real, meanBefore: real, meanAfter: real,
                     varStart: real, varBefore: real, varAfter: real)
    requires Batched(rows, b + 1, m, j)
    requires TotalsAt(rows, b, m, j, sameRows, meanStart, meanBefore, varStart, varBefore)
    requires Span(b + 1, m) <= |rows| && HasColumn(Batch(rows, b, m, sameRows), m, j)
    requires meanAfter == meanBefore + BatchMean(Batch(rows, b, m, sameRows), m, j)
    requires varAfter == varBefore + BatchVariance(Batch(rows, b, m, sameRows), m, j)
    ensures TotalsAt(rows, b + 1, m, j, sameRows, meanStart, meanAfter, varStart, varAfter)
  {
    TotalsStep(rows, b, b + 1, m, j, sameRows);
  }

  /** Shuffling keeps every row at least `width` long. */
  lemma ShuffledRows(rows: seq<seq<real>>, n: nat, draws: seq<int>, randMax: int, width: int)
    requires n <= |rows| && Rows(rows, |rows|, width)
    requires Shuffle.StepCount(n) <= |draws| && Shuffle.ValidDraws(draws, randMax)
    ensures Rows(Shuffle.Shuffled(rows, Shuffle.StepCount(n), n, draws, randMax), |rows|, width)
  {
    var shuffled := Shuffle.Shuffled(rows, Shuffle.StepCount(n), n, draws, randMax);
    Shuffle.ShuffledPermutes(rows, Shuffle.StepCount(n), n, draws, randMax);
    forall x | 0 <= x < |shuffled|
      ensures width <= |shuffled[x]|
    {
      assert shuffled[x] in multiset(rows);
    }
  }

  /** The bn layer buffers `batch_normalization_final_mean_variance`
      touches. */
  class BnStats {
    const width: nat
    const tempVectors: array2<real>
    const outputs: array2<real>
    const gamma: array<real>
    const beta: array<real>
    const mean: array<real>
    const variance: array<real>
    const finalMean: array<real>
    const finalVar: array<real>

    ghost predicate Valid()
    {
      tempVectors != outputs && width <= tempVectors.Length1 && width <= outputs.Length1 &&
      width <= gamma.Length && width <= beta.Length && width <= mean.Length && width <= variance.Length &&
      width <= finalMean.Length && width <= finalVar.Length &&
      mean != variance && mean != finalMean && mean != finalVar && variance != finalMean &&
      variance != finalVar && finalMean != finalVar &&
      gamma != mean && gamma != variance && beta != mean && beta != variance
    }

    constructor (width: nat, tempVectors: array2<real>, outputs: array2<real>, gamma: array<real>, beta: array<real>,
                 mean: array<real>, variance: array<real>, finalMean: array<real>, finalVar: array<real>)
      requires tempVectors != outputs && width <= tempVectors.Length1 && width <= outputs.Length1
      requires width <= gamma.Length && width <= beta.Length && width <= mean.Length && width <= variance.Length
      requires width <= finalMean.Length && width <= finalVar.Length
      requires mean != variance && mean != finalMean && mean != finalVar && variance != finalMean
      requires variance != finalVar && finalMean != finalVar
      requires gamma != mean && gamma != variance && beta != mean && beta != variance
      ensures Valid()
      ensures this.width == width && this.tempVectors == tempVectors && this.outputs == outputs
      ensures this.gamma == gamma && this.beta == beta && this.mean == mean && this.variance == variance
      ensures this.finalMean == finalMean && this.finalVar == finalVar
    {
      this.width := width;
      this.tempVectors := tempVectors;
      this.outputs := outputs;
      this.gamma := gamma;
      this.beta := beta;
      this.mean := mean;
      this.variance := variance;
      this.finalMean := finalMean;
      this.finalVar := finalVar;
    }

    /** `reset_bn`, as far as this model needs it: mean and var are zero
        over the vector width. */
    method ResetBn()
      requires Valid()
      modifies mean, variance
      ensures forall j :: 0 <= j < width ==> mean[j] == 0.0 && variance[j] == 0.0
      ensures forall j :: width <= j < mean.Length ==> mean[j] == old(mean[j])
      ensures forall j :: width <= j < variance.Length ==> variance[j] == old(variance[j])
    {
      var j := 0;
      while j < width
        invariant 0 <= j <= width
        invariant forall k :: 0 <= k < j ==> mean[k] == 0.0 && variance[k] == 0.0
        invariant forall k :: j <= k < mean.Length ==> mean[k] == old(mean[k])
        invariant forall k :: j <= k < variance.Length ==> variance[k] == old(variance[k])
      {
        mean[j] := 0.0;
        variance[j] := 0.0;
        j := j + 1;
      }
    }

    /** One iteration of the loop of normalization.c:222-228: reset_bn, then
        the feed-forward pass over one batch of m rows, which leaves the
        batch mean and population variance in mean and var. */
    method RunBatch(batch: seq<seq<real>>, m: nat, epsilon: real, sqrt: real -> real)
      requires Valid() && m >= 1 && Rows(batch, m, width) && m <= tempVectors.Length0 && m <= outputs.Length0
      modifies mean, variance, tempVectors, outputs
      ensures forall j :: 0 <= j < width ==> mean[j] == BatchMean(batch, m, j)
      ensures forall j :: 0 <= j < width ==> variance[j] == BatchVariance(batch, m, j)
    {
      ResetBn();
      BatchNormFeedForward(m, batch, tempVectors, width, gamma, beta, mean, variance, outputs, epsilon, sqrt);
    }

    /** RunBatch followed by the two sum1D calls of normalization.c:225-226,
        which add the layer's mean and var into the running totals. */
    method AddBatch(batch: seq<seq<real>>, m: nat, epsilon: real, sqrt: real -> real,
                    meanTotal: array<real>, varTotal: array<real>)
      requires Valid() && m >= 1 && Rows(batch, m, width) && m <= tempVectors.Length0 && m <= outputs.Length0
      requires meanTotal != varTotal && width <= meanTotal.Length && width <= varTotal.Length
      requires meanTotal !in {mean, variance, gamma, beta} && varTotal !in {mean, variance, gamma, beta}
      modifies mean, variance, tempVectors, outputs, meanTotal, varTotal
      ensures forall j :: 0 <= j < width ==> meanTotal[j] == old(meanTotal[j]) + BatchMean(batch, m, j)
      ensures forall j :: 0 <= j < width ==> varTotal[j] == old(varTotal[j]) + BatchVariance(batch, m, j)
    {
      RunBatch(batch, m, epsilon, sqrt);
      Sum1D(mean, meanTotal, meanTotal, width);
      Sum1D(variance, varTotal, varTotal, width);
    }

    /** Batch b of the loop of normalization.c:222-228: the rows from i
        on (or from 0, as written) go through AddBatch, and the totals
        move from b batches to b+1. */
    method AddBatchAt(rows: seq<seq<real>>, n: nat, i: nat, ghost b: nat, ghost k: nat, m: nat, sameRows: bool,
                      epsilon: real, sqrt: real -> real, meanTotal: array<real>, varTotal: array<real>,
                      ghost meanStart: seq<real>, ghost varStart: seq<real>)
      requires Valid() && m >= 1 && Rows(rows, n, width) && m <= tempVectors.Length0 && m <= outputs.Length0
      requires b < k && Span(k, m) <= n && i == Span(b, m)
      requires meanTotal != varTotal && width <= meanTotal.Length && width <= varTotal.Length
      requires meanTotal !in {mean, variance, gamma, beta} && varTotal !in {mean, variance, gamma, beta}
      requires TotalsAfter(rows, b, m, width, sameRows, meanStart, meanTotal[..], varStart, varTotal[..])
      modifies mean, variance, tempVectors, outputs, meanTotal, varTotal
      ensures TotalsAfter(rows, b + 1, m, width, sameRows, meanStart, meanTotal[..], varStart, varTotal[..])
    {
      BatchRows(rows, n, b, k, m, width, sameRows);
      var batch := if sameRows then rows else rows[i..];
      assert batch == Batch(rows, b, m, sameRows);
      ghost var meanBefore, varBefore := meanTotal[..], varTotal[..];
      AddBatch(batch, m, epsilon, sqrt, meanTotal, varTotal);
      TotalsAfterStep(rows, b, m, width, sameRows, meanStart, meanBefore, meanTotal[..], varStart, varBefore, varTotal[..]);
    }

    /** The loop of normalization.c:222-228 over k = n/m mini-batches: each
        one resets the layer, runs the feed-forward pass on a batch of m
        rows and adds the layer's mean and var into the running totals. */
    method AccumulateBatches(rows: seq<seq<real>>, n: nat, m: nat, sameRows: bool, epsilon: real,
                             sqrt: real -> real, meanTotal: array<real>, varTotal: array<real>)
      requires Valid() && m >= 1 && n % m == 0 && Rows(rows, n, width) && m <= tempVectors.Length0 && m <= outputs.Length0
      requires meanTotal != varTotal && width <= meanTotal.Length && width <= varTotal.Length
      requires meanTotal !in {mean, variance, gamma, beta} && varTotal !in {mean, variance, gamma, beta}
      modifies mean, variance, tempVectors, outputs, meanTotal, varTotal
      ensures Span(n / m, m) == n
      ensures TotalsAfter(rows, n / m, m, width, sameRows, old(meanTotal[..]), meanTotal[..], old(varTotal[..]), varTotal[..])
    {
      var k := n / m;
      SpanIsProduct(k, m);
      var i := 0;
      ghost var b: nat := 0;
      while i < n
        invariant b <= k && i == Span(b, m) && i <= n
        invariant TotalsAfter(rows, b, m, width, sameRows, old(meanTotal[..]), meanTotal[..], old(varTotal[..]), varTotal[..])
      {
        SpanOrder(b, k, m);
        SpanMonotone(b + 1, k, m);
        AddBatchAt(rows, n, i, b, k, m, sameRows, epsilon, sqrt, meanTotal, varTotal, old(meanTotal[..]), old(varTotal[..]));
        i := i + m;
        b := b + 1;
      }
      SpanOrder(b, k, m);
    }

    /** The loop of normalization.c:230-233: each total is averaged over
        the k batches, and the variance gets the Bessel factor m/(m-1). */
    static method Finalise(meanTotal: array<real>, varTotal: array<real>, width: nat, k: nat, m: nat)
      requires meanTotal != varTotal && width <= meanTotal.Length && width <= varTotal.Length
      modifies meanTotal, varTotal
      ensures forall i :: 0 <= i < width ==> meanTotal[i] == FloatDiv(old(meanTotal[i]), k as real)
      ensures forall i :: 0 <= i < width ==>
        varTotal[i] == FloatDiv(Unbiased(old(varTotal[i]), m), k as real)
      ensures forall i :: width <= i < meanTotal.Length ==> meanTotal[i] == old(meanTotal[i])
      ensures forall i :: width <= i < varTotal.Length ==> varTotal[i] == old(varTotal[i])
    {
      var j := 0;
      while j < width
        invariant 0 <= j <= width
        invariant forall i :: 0 <= i < j ==> meanTotal[i] == FloatDiv(old(meanTotal[i]), k as real)
        invariant forall i :: 0 <= i < j ==>
          varTotal[i] == FloatDiv(Unbiased(old(varTotal[i]), m), k as real)
        invariant forall i :: j <= i < meanTotal.Length ==> meanTotal[i] == old(meanTotal[i])
        invariant forall i :: j <= i < varTotal.Length ==> varTotal[i] == old(varTotal[i])
      {
        meanTotal[j] := FloatDiv(meanTotal[j], k as real);
        varTotal[j] := FloatDiv(Unbiased(varTotal[j], m), k as real);
        j := j + 1;
      }
    }

    /** Lines 222-236 of normalization.c once the batch size is known to
        divide n: the totals start at zero (the calloc'd buffers), gather
        the k = n/m batches, are averaged (with the Bessel factor on the
        variance) and copied into final_mean and final_var. */
    method ComputeFinals(rows: seq<seq<real>>, n: nat, m: nat, sameRows: bool, epsilon: real, sqrt: real -> real)
      requires Valid() && m >= 1 && n % m == 0 && Rows(rows, n, width) && m <= tempVectors.Length0 && m <= outputs.Length0
      modifies mean, variance, tempVectors, outputs, finalMean, finalVar
      ensures Span(n / m, m) == n
      ensures Finals(rows, n / m, m, width, sameRows, finalMean[..width], finalVar[..width])
      ensures finalMean[width..] == old(finalMean[width..]) && finalVar[width..] == old(finalVar[width..])
    {
      var meanTotal := new real[width](_ => 0.0);
      var varTotal := new real[width](_ => 0.0);
      ghost var zeros := meanTotal[..];
      assert varTotal[..] == zeros;
      AccumulateBatches(rows, n, m, sameRows, epsilon, sqrt, meanTotal, varTotal);
      ghost var sumMean, sumVar := meanTotal[..], varTotal[..];
      Finalise(meanTotal, varTotal, width, n / m, m);
      FinalsFromTotals(rows, n / m, m, width, sameRows, zeros, sumMean, sumVar, meanTotal[..], varTotal[..]);
      CopyArray(meanTotal, finalMean, width);
      CopyArray(varTotal, finalVar, width);
    }

    /** `batch_normalization_final_mean_variance`. The input vectors are
        shuffled first (the draws stand for rand()); when mini_batch_size
        does not divide n_vectors the routine stops there (exit(1) in C).
        Otherwise final_mean[j] is the average over the k = n/m batches of
        their means, and final_var[j] is m/(m-1) times the average of their
        population variances (see Finals). `sameRows` selects the batches:
        true feeds rows 0 .. m-1 every time, as normalization.c:224 does;
        false feeds batch b the rows b*m .. b*m+m-1. */
    method FinalMeanVariance(inputVectors: array<seq<real>>, n: nat, m: nat, draws: seq<int>, randMax: int,
                             sameRows: bool, epsilon: real, sqrt: real -> real) returns (exited: bool)
      requires Valid() && m >= 1 && m <= tempVectors.Length0 && m <= outputs.Length0
      requires n <= inputVectors.Length && Rows(inputVectors[..], inputVectors.Length, width)
      requires Shuffle.StepCount(n) <= |draws| && Shuffle.ValidDraws(draws, randMax)
      modifies inputVectors, mean, variance, tempVectors, outputs, finalMean, finalVar
      ensures inputVectors[..] == Shuffle.Shuffled(old(inputVectors[..]), Shuffle.StepCount(n), n, draws, randMax)
      ensures exited <==> n % m != 0
      ensures exited ==> finalMean[..] == old(finalMean[..]) && finalVar[..] == old(finalVar[..])
      ensures !exited ==> Span(n / m, m) == n && Rows(inputVectors[..], n, width)
      ensures !exited ==> Finals(inputVectors[..], n / m, m, width, sameRows, finalMean[..width], finalVar[..width])
      ensures finalMean[width..] == old(finalMean[width..]) && finalVar[width..] == old(finalVar[width..])
    {
      ghost var before := inputVectors[..];
      var _ := Shuffle.ShuffleMatrix(inputVectors, n, draws, randMax);
      if n % m != 0 {
        return true;
      }
      var rows := inputVectors[..];
      ShuffledRows(before, n, draws, randMax, width);
      ComputeFinals(rows, n, m, sameRows, epsilon, sqrt);
      exited := false;
    }
  }
}
