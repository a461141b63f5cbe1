/** Shared conventions of the numeric core: flat row-major addressing of
    rank-2 and rank-3 tensors, the output-size law of convolution and
    pooling, the padding ring that those routines never write, and the
    "everything below a cursor is done" shape of their loop invariants. */
module Tensor {

  /** The output side length shared by convolution and both poolings:
      (input - kernel) / stride + 1 + 2 * padding.  The C code divides
      integers with truncation; the numerator is never negative here, so
      truncation and Dafny's Euclidean division agree. */
  function OutSize(input: nat, kernel: nat, stride: nat, padding: nat): (r: nat)
    requires kernel <= input && stride >= 1
    ensures r >= 2 * padding + 1
    ensures (r - 2 * padding - 1) * stride + kernel <= input
    ensures input < (r - 2 * padding) * stride + kernel
  {
    var q := (input - kernel) / stride;
    QuotientBounds(input - kernel, stride);
    q + 1 + 2 * padding
  }

  /** q * d <= n < (q + 1) * d for the quotient q of n by d. */
  lemma QuotientBounds(n: nat, d: nat)
    requires d >= 1
    ensures (n / d) * d <= n < (n / d + 1) * d
  {
    var q, r := n / d, n % d;
    assert n == q * d + r;
  }

  /** A flat index whose value lies in row q of a row-major buffer of
      width w decomposes into that row and the remaining column. */
  lemma {:induction false} RowCol(idx: int, w: int, q: int)
    requires w >= 1 && q * w <= idx < q * w + w
    ensures idx / w == q && idx % w == idx - q * w
  {
    var d, m := idx / w, idx % w;
    assert idx == d * w + m && 0 <= m < w;
    assert d * w - q * w == (d - q) * w;
    if d > q {
      MulMono(1, d - q, w);
    } else if d < q {
      MulMono(1, q - d, w);
    }
  }

  lemma QuotientBelow(a: int, b: int, w: int)
    requires w >= 1 && a * w < b * w
    ensures a < b
  {
  }

  lemma MulMono(a: int, b: int, w: int)
    requires a <= b && w >= 0
    ensures a * w <= b * w
  {
    assert b * w - a * w == (b - a) * w;
  }

  /** Cell (row, col) of a rows x cols grid lies inside a buffer of
      rows * cols elements and decomposes back into (row, col). */
  lemma GridIndex(row: int, col: int, rows: int, cols: int)
    requires 0 <= row < rows && 0 <= col < cols
    ensures 0 <= row * cols + col < rows * cols
    ensures (row * cols + col) / cols == row && (row * cols + col) % cols == col
  {
    MulMono(row, rows - 1, cols);
    RowCol(row * cols + col, cols, row);
  }

  /** Cell (c, r, col) of a cs x rs x ws buffer, c*rs*ws + r*ws + col,
      lies inside it. */
  lemma Flat3(c: int, r: int, col: int, cs: int, rs: int, ws: int)
    requires 0 <= c < cs && 0 <= r < rs && 0 <= col < ws
    ensures 0 <= c * rs * ws + r * ws + col < cs * rs * ws
  {
    GridIndex(r, col, rs, ws);
    assert c * rs * ws == c * (rs * ws);
    assert cs * rs * ws == cs * (rs * ws);
    MulMono(c + 1, cs, rs * ws);
    MulMono(0, c, rs * ws);
  }

  /** Is flat index idx of a width-w output buffer a cell the sweeps
      write, that is, outside the padding ring of width p? */
  predicate Interior(h: int, w: int, p: int, idx: int)
    requires w >= 1
  {
    var row, col := idx / w, idx % w;
    p <= row < h - p && p <= col < w - p
  }

  /** The cells in front of the first interior cell are padding. */
  lemma PaddingBefore(h: int, w: int, p: nat, idx: int)
    requires w >= 2 * p + 1 && 0 <= idx < p * w + p
    ensures !Interior(h, w, p, idx)
  {
    var q := idx / w;
    QuotientBounds(idx, w);
    if q >= p {
      MulMono(p, q, w);
    }
  }

  /** The cells between the end of interior row r and the start of interior
      row r + 1 are padding. */
  lemma PaddingBetween(h: int, w: int, p: nat, r: int, idx: int)
    requires w >= 2 * p + 1 && r >= 0
    requires r * w + (w - p) <= idx < (r + 1) * w + p
    ensures !Interior(h, w, p, idx)
  {
    if idx < (r + 1) * w {
      RowCol(idx, w, r);
    } else {
      RowCol(idx, w, r + 1);
    }
  }

  /** The cells after the last interior row are padding. */
  lemma PaddingAfter(h: int, w: int, p: nat, idx: int)
    requires w >= 1 && h >= p && (h - p) * w <= idx
    ensures !Interior(h, w, p, idx)
  {
    QuotientBounds(idx, w);
    var q := idx / w;
    if q < h - p {
      MulMono(q + 1, h - p, w);
    }
  }

  /** Interior cell (row, col) is named by row * w + col. */
  lemma InteriorCell(h: int, w: int, p: nat, row: int, col: int)
    requires p <= row < h - p && p <= col < w - p
    ensures 0 <= row * w + col < h * w
    ensures Interior(h, w, p, row * w + col)
    ensures (row * w + col) / w == row && (row * w + col) % w == col
  {
    GridIndex(row, col, h, w);
  }

  /** cur agrees with target below index n and with before from n on. */
  ghost predicate DoneUpTo(cur: seq<real>, before: seq<real>, target: seq<real>, n: int)
  {
    |cur| == |before| == |target| &&
    forall idx :: 0 <= idx < |cur| ==> cur[idx] == (if idx < n then target[idx] else before[idx])
  }
}
