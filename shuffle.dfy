/**
  The Fisher-Yates swap loops of llab/gpu/utils.c (`shuffle_char_matrix`,
  `shuffle_float_matrix`, `shuffle_int_matrix`, their two-matrix siblings
  and the two variants that also carry a float vector and one or two int
  label vectors).

  Step i (for i from 0 to n-2) picks j = i + rand() / (RAND_MAX/(n-i) + 1)
  and swaps slots i and j. The values rand() returns are the parameter
  `draws` (draws[i] is the one drawn at step i), each in [0, randMax].
  Row pointers are modelled as values of a type parameter: a swap of two
  pointers is a swap of two values.
*/
module Shuffle {
  import Tensor

  predicate ValidDraws(draws: seq<int>, randMax: int)
  {
    randMax >= 0 && forall k :: 0 <= k < |draws| ==> 0 <= draws[k] <= randMax
  }

  /** Number of swap steps the loop performs: n-1 when n > 1, else none. */
  function StepCount(n: int): nat
  {
    if n > 1 then n - 1 else 0
  }

  lemma PickBound(span: int, d: int, randMax: int)
    requires span >= 1 && 0 <= d <= randMax
    ensures 0 <= d / (randMax / span + 1) < span
  {
    var q := randMax / span;
    var w := q + 1;
    assert randMax < w * span by {
      assert randMax == q * span + randMax % span;
    }
    assert d == (d / w) * w + d % w;
    Tensor.QuotientBelow(d / w, span, w);
  }

  /** The index j chosen at step i; it always lies in [i, n). */
  function PickIndex(i: int, n: int, d: int, randMax: int): (j: int)
    requires 0 <= i < n && 0 <= d <= randMax
    ensures i <= j < n
  {
    PickBound(n - i, d, randMax);
    i + d / (randMax / (n - i) + 1)
  }

  /** Swap of slots i and j, in the order of the C code (t = m[j]; m[j] =
      m[i]; m[i] = t). */
  function Swap<T>(s: seq<T>, i: int, j: int): (r: seq<T>)
    requires 0 <= i < |s| && 0 <= j < |s|
    ensures |r| == |s|
  {
    s[j := s[i]][i := s[j]]
  }

  /** The effect of the first k steps of the loop on a table s. */
  function Shuffled<T>(s: seq<T>, k: nat, n: int, draws: seq<int>, randMax: int): (r: seq<T>)
    requires k <= StepCount(n) && n <= |s| && k <= |draws| && ValidDraws(draws, randMax)
    ensures |r| == |s|
    decreases k
  {
    if k == 0 then s
    else Swap(Shuffled(s, k - 1, n, draws, randMax), k - 1, PickIndex(k - 1, n, draws[k - 1], randMax))
  }

  lemma SwapPermutes<T>(s: seq<T>, i: int, j: int)
    requires 0 <= i < |s| && 0 <= j < |s|
    ensures multiset(Swap(s, i, j)) == multiset(s)
  {
    var u := s[j := s[i]];
    assert multiset(u) == multiset(s) - multiset{s[j]} + multiset{s[i]};
    assert u[i] == s[i];
    assert multiset(u[i := s[j]]) == multiset(u) - multiset{s[i]} + multiset{s[j]};
  }

  /** The shuffle is a permutation: no row is lost or duplicated, whatever
      the draws. */
  lemma {:induction false} ShuffledPermutes<T>(s: seq<T>, k: nat, n: int, draws: seq<int>, randMax: int)
    requires k <= StepCount(n) && n <= |s| && k <= |draws| && ValidDraws(draws, randMax)
    ensures multiset(Shuffled(s, k, n, draws, randMax)) == multiset(s)
    decreases k
  {
    if k > 0 {
      ShuffledPermutes(s, k - 1, n, draws, randMax);
      var t := Shuffled(s, k - 1, n, draws, randMax);
      var j := PickIndex(k - 1, n, draws[k - 1], randMax);
      assert Shuffled(s, k, n, draws, randMax) == Swap(t, k - 1, j);
      SwapPermutes(t, k - 1, j);
    }
  }

  /** Slots at n and beyond are never touched. */
  lemma {:induction false} ShuffledFrame<T>(s: seq<T>, k: nat, n: int, draws: seq<int>, randMax: int, x: int)
    requires k <= StepCount(n) && n <= |s| && k <= |draws| && ValidDraws(draws, randMax)
    requires n <= x < |s| && 0 <= x
    ensures Shuffled(s, k, n, draws, randMax)[x] == s[x]
    decreases k
  {
    if k > 0 {
      ShuffledFrame(s, k - 1, n, draws, randMax, x);
    }
  }

  /** The identity table 0, 1, ..., len-1. */
  function Iota(len: nat): (r: seq<int>)
    ensures |r| == len
  {
    seq(len, x => x)
  }

  /** Every table shuffled with the same draws is rearranged by the same
      permutation, the shuffle of the identity table: slot x receives the row
      that was at slot p[x]. This is why the two-matrix shuffles keep m[x]
      and m1[x] paired. */
  lemma {:induction false} ShuffledReindex<T>(s: seq<T>, k: nat, n: int, draws: seq<int>, randMax: int)
    requires k <= StepCount(n) && n <= |s| && k <= |draws| && ValidDraws(draws, randMax)
    ensures var p := Shuffled(Iota(|s|), k, n, draws, randMax);
      forall x :: 0 <= x < |s| ==> 0 <= p[x] < |s| && Shuffled(s, k, n, draws, randMax)[x] == s[p[x]]
    decreases k
  {
    var p := Shuffled(Iota(|s|), k, n, draws, randMax);
    if k > 0 {
      ShuffledReindex(s, k - 1, n, draws, randMax);
      var t := Shuffled(s, k - 1, n, draws, randMax);
      var q := Shuffled(Iota(|s|), k - 1, n, draws, randMax);
      var i := k - 1;
      var j := PickIndex(i, n, draws[i], randMax);
      assert p == Swap(q, i, j);
      forall x | 0 <= x < |s|
        ensures 0 <= p[x] < |s| && Shuffled(s, k, n, draws, randMax)[x] == s[p[x]]
      {
        var y := if x == i then j else if x == j then i else x;
        assert p[x] == q[y];
        assert Shuffled(s, k, n, draws, randMax)[x] == t[y];
      }
    } else {
      assert forall x :: 0 <= x < |s| ==> p[x] == x;
    }
  }

  /** One swap of slots i and j of an array. */
  method SwapSlots<T>(m: array<T>, i: int, j: int)
    requires 0 <= i < m.Length && 0 <= j < m.Length
    modifies m
    ensures m[..] == Swap(old(m[..]), i, j)
  {
    var t := m[j];
    m[j] := m[i];
    m[i] := t;
  }

  /** Step i of the loop on one table: the swap with the slot j drawn at
      step i takes the table from i steps to i + 1. */
  method ShuffleStep<T>(a: array<T>, ghost a0: seq<T>, i: int, j: int, n: int, draws: seq<int>, randMax: int)
    requires 0 <= i < StepCount(n) && StepCount(n) <= |draws| && ValidDraws(draws, randMax)
    requires n <= |a0| == a.Length && j == PickIndex(i, n, draws[i], randMax)
    requires a[..] == Shuffled(a0, i, n, draws, randMax)
    modifies a
    ensures a[..] == Shuffled(a0, i + 1, n, draws, randMax)
  {
    SwapSlots(a, i, j);
  }

  /** `shuffle_char_matrix`, `shuffle_float_matrix` and `shuffle_int_matrix`:
      the row table becomes the shuffled table; the result is 0. */
  method ShuffleMatrix<T>(m: array<T>, n: int, draws: seq<int>, randMax: int) returns (r: int)
    requires n <= m.Length && StepCount(n) <= |draws| && ValidDraws(draws, randMax)
    modifies m
    ensures r == 0
    ensures m[..] == Shuffled(old(m[..]), StepCount(n), n, draws, randMax)
  {
    if n > 1 {
      var i := 0;
      while i < n - 1
        invariant 0 <= i <= n - 1
        invariant m[..] == Shuffled(old(m[..]), i, n, draws, randMax)
      {
        var j := PickIndex(i, n, draws[i], randMax);
        ShuffleStep(m, old(m[..]), i, j, n, draws, randMax);
        i := i + 1;
      }
    }
    r := 0;
  }

  /** `shuffle_char_matrices`, `shuffle_float_matrices` and
      `shuffle_int_matrices`: both tables are shuffled with the same draws. */
  method ShuffleMatrices<T>(m: array<T>, m1: array<T>, n: int, draws: seq<int>, randMax: int) returns (r: int)
    requires m != m1
    requires n <= m.Length && n <= m1.Length && StepCount(n) <= |draws| && ValidDraws(draws, randMax)
    modifies m, m1
    ensures r == 0
    ensures m[..] == Shuffled(old(m[..]), StepCount(n), n, draws, randMax)
    ensures m1[..] == Shuffled(old(m1[..]), StepCount(n), n, draws, randMax)
  {
    if n > 1 {
      var i := 0;
      while i < n - 1
        invariant 0 <= i <= n - 1
        invariant m[..] == Shuffled(old(m[..]), i, n, draws, randMax)
        invariant m1[..] == Shuffled(old(m1[..]), i, n, draws, randMax)
      {
        var j := PickIndex(i, n, draws[i], randMax);
        ShuffleStep(m, old(m[..]), i, j, n, draws, randMax);
        ShuffleStep(m1, old(m1[..]), i, j, n, draws, randMax);
        i := i + 1;
      }
    }
    r := 0;
  }

  // ----- the label vectors of the *_float_int_* variants -----

  /** What the label statements `v[i] = v[i]; v[i] = t3;` (t3 = v[j]) do:
      slot i takes the value of slot j and slot j is left as it was. */
  function CopyDown<T>(s: seq<T>, i: int, j: int): (r: seq<T>)
    requires 0 <= i < |s| && 0 <= j < |s|
    ensures |r| == |s|
  {
    s[i := s[j]]
  }

  /** The effect of the first k steps on a label vector, as written. */
  function Relabelled<T>(s: seq<T>, k: nat, n: int, draws: seq<int>, randMax: int): (r: seq<T>)
    requires k <= StepCount(n) && n <= |s| && k <= |draws| && ValidDraws(draws, randMax)
    ensures |r| == |s|
    decreases k
  {
    if k == 0 then s
    else CopyDown(Relabelled(s, k - 1, n, draws, randMax), k - 1, PickIndex(k - 1, n, draws[k - 1], randMax))
  }

  /** Two rows, one step that picks j = 1: the rows are swapped but the label
      vector [0, 1] becomes [1, 1]. Label 0 is lost and row 1 (now first)
      keeps the right label only by accident. */
  lemma LabelsNotPermuted()
    ensures Shuffled([10, 20], 1, 2, [1], 1) == [20, 10]
    ensures Relabelled([0, 1], 1, 2, [1], 1) == [1, 1]
    ensures multiset(Relabelled([0, 1], 1, 2, [1], 1)) != multiset([0, 1])
  {
    assert PickIndex(0, 2, 1, 1) == 1;
    assert multiset([1, 1]) != multiset([0, 1]) by {
      assert multiset([1, 1])[0] == 0;
    }
  }

  /** One step of the label statements on an array. */
  method CopyDownSlot<T>(v: array<T>, i: int, j: int)
    requires 0 <= i < v.Length && 0 <= j < v.Length
    modifies v
    ensures v[..] == CopyDown(old(v[..]), i, j)
  {
    var t := v[j];
    v[i] := v[i];
    v[i] := t;
  }

  /** Step i on the three tables the label variants shuffle together. */
  method RowsStep<T>(m: array<T>, m1: array<T>, f: array<real>, ghost m0: seq<T>, ghost m10: seq<T>,
                     ghost f0: seq<real>, i: int, j: int, n: int, draws: seq<int>, randMax: int)
    requires m != m1 && m as object != f && m1 as object != f
    requires 0 <= i < StepCount(n) && StepCount(n) <= |draws| && ValidDraws(draws, randMax)
    requires n <= |m0| == m.Length && n <= |m10| == m1.Length && n <= |f0| == f.Length
    requires j == PickIndex(i, n, draws[i], randMax)
    requires m[..] == Shuffled(m0, i, n, draws, randMax) && m1[..] == Shuffled(m10, i, n, draws, randMax)
    requires f[..] == Shuffled(f0, i, n, draws, randMax)
    modifies m, m1, f
    ensures m[..] == Shuffled(m0, i + 1, n, draws, randMax) && m1[..] == Shuffled(m10, i + 1, n, draws, randMax)
    ensures f[..] == Shuffled(f0, i + 1, n, draws, randMax)
  {
    ShuffleStep(m, m0, i, j, n, draws, randMax);
    ShuffleStep(m1, m10, i, j, n, draws, randMax);
    ShuffleStep(f, f0, i, j, n, draws, randMax);
  }

  /** Step i of the loop on a label vector, as written. */
  method RelabelStep<T>(v: array<T>, ghost v0: seq<T>, i: int, j: int, n: int, draws: seq<int>, randMax: int)
    requires 0 <= i < StepCount(n) && StepCount(n) <= |draws| && ValidDraws(draws, randMax)
    requires n <= |v0| == v.Length && j == PickIndex(i, n, draws[i], randMax)
    requires v[..] == Relabelled(v0, i, n, draws, randMax)
    modifies v
    ensures v[..] == Relabelled(v0, i + 1, n, draws, randMax)
  {
    CopyDownSlot(v, i, j);
  }

  /** `shuffle_char_matrices_float_int_vectors` as written: m, m1 and f are
      shuffled with the same draws, but v only receives CopyDown steps. */
  method ShuffleWithLabels<T>(m: array<T>, m1: array<T>, f: array<real>, v: array<int>, n: int,
                              draws: seq<int>, randMax: int) returns (r: int)
    requires m != m1 && m as object != f && m1 as object != f
    requires m as object != v && m1 as object != v && f as object != v
    requires n <= m.Length && n <= m1.Length && n <= f.Length && n <= v.Length
    requires StepCount(n) <= |draws| && ValidDraws(draws, randMax)
    modifies m, m1, f, v
    ensures r == 0
    ensures m[..] == Shuffled(old(m[..]), StepCount(n), n, draws, randMax)
    ensures m1[..] == Shuffled(old(m1[..]), StepCount(n), n, draws, randMax)
    ensures f[..] == Shuffled(old(f[..]), StepCount(n), n, draws, randMax)
    ensures v[..] == Relabelled(old(v[..]), StepCount(n), n, draws, randMax)
  {
    if n > 1 {
      var i := 0;
      while i < n - 1
        invariant 0 <= i <= n - 1
        invariant m[..] == Shuffled(old(m[..]), i, n, draws, randMax)
        invariant m1[..] == Shuffled(old(m1[..]), i, n, draws, randMax)
        invariant f[..] == Shuffled(old(f[..]), i, n, draws, randMax)
        invariant v[..] == Relabelled(old(v[..]), i, n, draws, randMax)
      {
        var j := PickIndex(i, n, draws[i], randMax);
        RowsStep(m, m1, f, old(m[..]), old(m1[..]), old(f[..]), i, j, n, draws, randMax);
        RelabelStep(v, old(v[..]), i, j, n, draws, randMax);
        i := i + 1;
      }
    }
    r := 0;
  }

  /** `shuffle_char_matrices_float_int_int_vectors` as written: both label
      vectors v and v2 only receive CopyDown steps. */
  method ShuffleWithTwoLabels<T>(m: array<T>, m1: array<T>, f: array<real>, v: array<int>, v2: array<int>,
                                 n: int, draws: seq<int>, randMax: int) returns (r: int)
    requires m != m1 && v != v2 && m as object != f && m1 as object != f
    requires m as object != v && m1 as object != v && f as object != v
    requires m as object != v2 && m1 as object != v2 && f as object != v2
    requires n <= m.Length && n <= m1.Length && n <= f.Length && n <= v.Length && n <= v2.Length
    requires StepCount(n) <= |draws| && ValidDraws(draws, randMax)
    modifies m, m1, f, v, v2
    ensures r == 0
    ensures m[..] == Shuffled(old(m[..]), StepCount(n), n, draws, randMax)
    ensures m1[..] == Shuffled(old(m1[..]), StepCount(n), n, draws, randMax)
    ensures f[..] == Shuffled(old(f[..]), StepCount(n), n, draws, randMax)
    ensures v[..] == Relabelled(old(v[..]), StepCount(n), n, draws, randMax)
    ensures v2[..] == Relabelled(old(v2[..]), StepCount(n), n, draws, randMax)
  {
    if n > 1 {
      var i := 0;
      while i < n - 1
        invariant 0 <= i <= n - 1
        invariant m[..] == Shuffled(old(m[..]), i, n, draws, randMax)
        invariant m1[..] == Shuffled(old(m1[..]), i, n, draws, randMax)
        invariant f[..] == Shuffled(old(f[..]), i, n, draws, randMax)
        invariant v[..] == Relabelled(old(v[..]), i, n, draws, randMax)
        invariant v2[..] == Relabelled(old(v2[..]), i, n, draws, randMax)
      {
        var j := PickIndex(i, n, draws[i], randMax);
        RowsStep(m, m1, f, old(m[..]), old(m1[..]), old(f[..]), i, j, n, draws, randMax);
        RelabelStep(v, old(v[..]), i, j, n, draws, randMax);
        RelabelStep(v2, old(v2[..]), i, j, n, draws, randMax);
        i := i + 1;
      }
    }
    r := 0;
  }

  /** The evidently intended label shuffle: v is swapped like the rows, so
      it is permuted (ShuffledPermutes) by the same permutation as m
      (ShuffledReindex) and every row keeps its label. */
  method ShuffleWithLabelsSwapped<T>(m: array<T>, m1: array<T>, f: array<real>, v: array<int>, n: int,
                                     draws: seq<int>, randMax: int) returns (r: int)
    requires m != m1 && m as object != f && m1 as object != f
    requires m as object != v && m1 as object != v && f as object != v
    requires n <= m.Length && n <= m1.Length && n <= f.Length && n <= v.Length
    requires StepCount(n) <= |draws| && ValidDraws(draws, randMax)
    modifies m, m1, f, v
    ensures r == 0
    ensures m[..] == Shuffled(old(m[..]), StepCount(n), n, draws, randMax)
    ensures m1[..] == Shuffled(old(m1[..]), StepCount(n), n, draws, randMax)
    ensures f[..] == Shuffled(old(f[..]), StepCount(n), n, draws, randMax)
    ensures v[..] == Shuffled(old(v[..]), StepCount(n), n, draws, randMax)
  {
    if n > 1 {
      var i := 0;
      while i < n - 1
        invariant 0 <= i <= n - 1
        invariant m[..] == Shuffled(old(m[..]), i, n, draws, randMax)
        invariant m1[..] == Shuffled(old(m1[..]), i, n, draws, randMax)
        invariant f[..] == Shuffled(old(f[..]), i, n, draws, randMax)
        invariant v[..] == Shuffled(old(v[..]), i, n, draws, randMax)
      {
        var j := PickIndex(i, n, draws[i], randMax);
        RowsStep(m, m1, f, old(m[..]), old(m1[..]), old(f[..]), i, j, n, draws, randMax);
        ShuffleStep(v, old(v[..]), i, j, n, draws, randMax);
        i := i + 1;
      }
    }
    r := 0;
  }

  /** Step i on two label vectors swapped like the rows. */
  method LabelPairStep(v: array<int>, v2: array<int>, ghost v0: seq<int>, ghost v20: seq<int>,
                       i: int, j: int, n: int, draws: seq<int>, randMax: int)
    requires v != v2
    requires 0 <= i < StepCount(n) && StepCount(n) <= |draws| && ValidDraws(draws, randMax)
    requires n <= |v0| == v.Length && n <= |v20| == v2.Length
    requires j == PickIndex(i, n, draws[i], randMax)
    requires v[..] == Shuffled(v0, i, n, draws, randMax) && v2[..] == Shuffled(v20, i, n, draws, randMax)
    modifies v, v2
    ensures v[..] == Shuffled(v0, i + 1, n, draws, randMax) && v2[..] == Shuffled(v20, i + 1, n, draws, randMax)
  {
    ShuffleStep(v, v0, i, j, n, draws, randMax);
    ShuffleStep(v2, v20, i, j, n, draws, randMax);
  }

  /** The evidently intended two-label shuffle: v and v2 are swapped like
      the rows. */
  method ShuffleWithTwoLabelsSwapped<T>(m: array<T>, m1: array<T>, f: array<real>, v: array<int>, v2: array<int>,
                                        n: int, draws: seq<int>, randMax: int) returns (r: int)
    requires m != m1 && v != v2 && m as object != f && m1 as object != f
    requires m as object != v && m1 as object != v && f as object != v
    requires m as object != v2 && m1 as object != v2 && f as object != v2
    requires n <= m.Length && n <= m1.Length && n <= f.Length && n <= v.Length && n <= v2.Length
    requires StepCount(n) <= |draws| && ValidDraws(draws, randMax)
    modifies m, m1, f, v, v2
    ensures r == 0
    ensures m[..] == Shuffled(old(m[..]), StepCount(n), n, draws, randMax)
    ensures m1[..] == Shuffled(old(m1[..]), StepCount(n), n, draws, randMax)
    ensures f[..] == Shuffled(old(f[..]), StepCount(n), n, draws, randMax)
    ensures v[..] == Shuffled(old(v[..]), StepCount(n), n, draws, randMax)
    ensures v2[..] == Shuffled(old(v2[..]), StepCount(n), n, draws, randMax)
  {
    if n > 1 {
      var i := 0;
      while i < n - 1
        invariant 0 <= i <= n - 1
        invariant m[..] == Shuffled(old(m[..]), i, n, draws, randMax)
        invariant m1[..] == Shuffled(old(m1[..]), i, n, draws, randMax)
        invariant f[..] == Shuffled(old(f[..]), i, n, draws, randMax)
        invariant v[..] == Shuffled(old(v[..]), i, n, draws, randMax)
        invariant v2[..] == Shuffled(old(v2[..]), i, n, draws, randMax)
      {
        var j := PickIndex(i, n, draws[i], randMax);
        RowsStep(m, m1, f, old(m[..]), old(m1[..]), old(f[..]), i, j, n, draws, randMax);
        LabelPairStep(v, v2, old(v[..]), old(v2[..]), i, j, n, draws, randMax);
        i := i + 1;
      }
    }
    r := 0;
  }
}
