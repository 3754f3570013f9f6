/** Vectors of the ambient Euclidean space and batches of them.

    The ambient (embedding) metric is the plain dot product. A batch is a
    sequence of rows; two batches combine row by row when their lengths are
    equal or one of them has a single row, which is then repeated. */
module Vectors {
  import opened Numerics

  type Vector = seq<real>
  type Batch = seq<Vector>

  /** Euclidean inner product. */
  function Dot(u: Vector, v: Vector): real
    requires |u| == |v|
    decreases |u|
  {
    if |u| == 0 then 0.0 else u[0] * v[0] + Dot(u[1..], v[1..])
  }

  function SquaredNorm(v: Vector): real {
    Dot(v, v)
  }

  /** Euclidean norm: the square root of the squared norm. */
  function Norm(t: Transcendentals, v: Vector): real {
    Sqrt(t, SquaredNorm(v))
  }

  function Scale(c: real, v: Vector): (r: Vector)
    ensures |r| == |v|
    ensures forall i :: 0 <= i < |v| ==> r[i] == c * v[i]
  {
    seq(|v|, i requires 0 <= i < |v| => c * v[i])
  }

  function Add(u: Vector, v: Vector): (r: Vector)
    requires |u| == |v|
    ensures |r| == |u|
    ensures forall i :: 0 <= i < |u| ==> r[i] == u[i] + v[i]
  {
    seq(|u|, i requires 0 <= i < |u| => u[i] + v[i])
  }

  function Sub(u: Vector, v: Vector): (r: Vector)
    requires |u| == |v|
    ensures |r| == |u|
    ensures forall i :: 0 <= i < |u| ==> r[i] == u[i] - v[i]
  {
    seq(|u|, i requires 0 <= i < |u| => u[i] - v[i])
  }

  function Zeros(n: nat): (r: Vector)
    ensures |r| == n
    ensures forall i :: 0 <= i < n ==> r[i] == 0.0
  {
    seq(n, i => 0.0)
  }

  /** Elementwise division of a vector by a scalar (`v / c` in NumPy). */
  function DivideBy(v: Vector, c: real): (r: Vector)
    ensures |r| == |v|
    ensures forall i :: 0 <= i < |v| ==> r[i] == Quotient(v[i], c)
  {
    seq(|v|, i requires 0 <= i < |v| => Quotient(v[i], c))
  }

  // ---------------------------------------------------------------------------
  // Batches and broadcasting

  /** Row counts NumPy broadcasts against each other: equal, or one side single. */
  predicate Broadcastable(m: nat, n: nat) {
    1 <= m && 1 <= n && (m == n || m == 1 || n == 1)
  }

  /** Row `i` of a batch after broadcasting; a single-row batch repeats its row. */
  function RowAt(b: Batch, i: nat): Vector
    requires 1 <= |b|
  {
    if i < |b| then b[i] else b[0]
  }

  predicate Rectangular(b: Batch, width: nat) {
    forall i :: 0 <= i < |b| ==> |b[i]| == width
  }

  /** Two batches of one common width whose row counts broadcast. */
  predicate Conformable(a: Batch, b: Batch) {
    Broadcastable(|a|, |b|) && Rectangular(a, |a[0]|) && Rectangular(b, |a[0]|)
  }

  lemma {:induction false} ConformableRows(a: Batch, b: Batch, i: nat)
    requires Conformable(a, b)
    ensures |RowAt(a, i)| == |RowAt(b, i)| == |a[0]|
  {
  }

  // ---------------------------------------------------------------------------
  // Algebra of the inner product

  lemma {:induction false} DotSymmetric(u: Vector, v: Vector)
    requires |u| == |v|
    ensures Dot(u, v) == Dot(v, u)
    decreases |u|
  {
    if |u| != 0 {
      DotSymmetric(u[1..], v[1..]);
    }
  }

  lemma {:induction false} DotScaleLeft(c: real, u: Vector, v: Vector)
    requires |u| == |v|
    ensures Dot(Scale(c, u), v) == c * Dot(u, v)
    decreases |u|
  {
    if |u| != 0 {
      ScaleTail(c, u);
      DotScaleLeft(c, u[1..], v[1..]);
    }
  }

  lemma {:induction false} ScaleTail(c: real, u: Vector)
    requires |u| != 0
    ensures Scale(c, u)[1..] == Scale(c, u[1..])
  {
    assert forall k :: 0 <= k < |u| - 1 ==> Scale(c, u)[1..][k] == Scale(c, u[1..])[k];
  }

  lemma {:induction false} DotScaleRight(c: real, u: Vector, v: Vector)
    requires |u| == |v|
    ensures Dot(u, Scale(c, v)) == c * Dot(u, v)
  {
    var sv := Scale(c, v);
    var d1 := Dot(u, sv);
    var d2 := Dot(v, u);
    DotSymmetric(u, sv);
    DotScaleLeft(c, v, u);
    DotSymmetric(v, u);
    assert d1 == c * d2;
  }

  lemma {:induction false} DotAddLeft(u: Vector, w: Vector, v: Vector)
    requires |u| == |w| == |v|
    ensures Dot(Add(u, w), v) == Dot(u, v) + Dot(w, v)
    decreases |u|
  {
    if |u| != 0 {
      assert Add(u, w)[1..] == Add(u[1..], w[1..]);
      DotAddLeft(u[1..], w[1..], v[1..]);
    }
  }

  lemma {:induction false} DotAddRight(v: Vector, u: Vector, w: Vector)
    requires |u| == |w| == |v|
    ensures Dot(v, Add(u, w)) == Dot(v, u) + Dot(v, w)
  {
    DotSymmetric(v, Add(u, w));
    DotAddLeft(u, w, v);
    DotSymmetric(u, v);
    DotSymmetric(w, v);
  }

  lemma {:induction false} DotSubLeft(u: Vector, w: Vector, v: Vector)
    requires |u| == |w| == |v|
    ensures Dot(Sub(u, w), v) == Dot(u, v) - Dot(w, v)
    decreases |u|
  {
    if |u| != 0 {
      assert Sub(u, w)[1..] == Sub(u[1..], w[1..]);
      DotSubLeft(u[1..], w[1..], v[1..]);
    }
  }

  lemma {:induction false} DotSubRight(v: Vector, u: Vector, w: Vector)
    requires |u| == |w| == |v|
    ensures Dot(v, Sub(u, w)) == Dot(v, u) - Dot(v, w)
  {
    DotSymmetric(v, Sub(u, w));
    DotSubLeft(u, w, v);
    DotSymmetric(u, v);
    DotSymmetric(w, v);
  }

  lemma {:induction false} DotZerosLeft(v: Vector)
    ensures Dot(Zeros(|v|), v) == 0.0
    decreases |v|
  {
    if |v| != 0 {
      assert Zeros(|v|)[1..] == Zeros(|v| - 1);
      DotZerosLeft(v[1..]);
    }
  }

  lemma {:induction false} SquaredNormNonnegative(v: Vector)
    ensures 0.0 <= SquaredNorm(v)
    decreases |v|
  {
    if |v| != 0 {
      SquaredNormNonnegative(v[1..]);
      assert v[0] * v[0] >= 0.0;
    }
  }

  /** The squared norm vanishes exactly on the zero vector. */
  lemma {:induction false} SquaredNormZeroIff(v: Vector)
    ensures SquaredNorm(v) == 0.0 <==> v == Zeros(|v|)
  {
    if v == Zeros(|v|) {
      DotZerosLeft(v);
    } else {
      var k :| 0 <= k < |v| && v[k] != 0.0;
      SquaredNormPositive(v, k);
    }
  }

  /** A vector with a non-zero coordinate has a positive squared norm. */
  lemma {:induction false} SquaredNormPositive(v: Vector, k: nat)
    requires k < |v| && v[k] != 0.0
    ensures 0.0 < SquaredNorm(v)
    decreases |v|
  {
    var tail := v[1..];
    SquaredNormHead(v);
    if k == 0 {
      SquaredNormNonnegative(tail);
      SquarePositive(v[0]);
      PositiveSum(Square(v[0]), SquaredNorm(tail), SquaredNorm(v));
    } else {
      assert tail[k - 1] == v[k];
      SquaredNormPositive(tail, k - 1);
      PositiveSum(SquaredNorm(tail), Square(v[0]), SquaredNorm(v));
    }
  }

  /** The squared norm of a non-empty vector: the head's square plus the tail's. */
  lemma {:induction false} SquaredNormHead(v: Vector)
    requires |v| != 0
    ensures SquaredNorm(v) == Square(v[0]) + SquaredNorm(v[1..])
  {
  }

  function Square(x: real): (r: real)
    ensures 0.0 <= r
  {
    x * x
  }

  lemma SquarePositive(x: real)
    requires x != 0.0
    ensures 0.0 < Square(x)
  {
    if x < 0.0 {
      SquareOfPositive(-x);
      SquareOfNegation(x);
    } else {
      SquareOfPositive(x);
    }
  }

  lemma SquareOfPositive(x: real)
    requires 0.0 < x
    ensures 0.0 < Square(x)
  {
    calc {
      Square(x);
      x * x;
    > { assert 0.0 < x * x; }
      0.0;
    }
  }

  lemma SquareOfNegation(x: real)
    ensures Square(-x) == Square(x)
  {
  }

  /** Kept apart so that the sum is reasoned about linearly. */
  lemma PositiveSum(a: real, b: real, sum: real)
    requires 0.0 < a && 0.0 <= b && sum == a + b
    ensures 0.0 < sum
  {
  }

  lemma {:induction false} SquaredNormScale(c: real, v: Vector)
    ensures SquaredNorm(Scale(c, v)) == c * c * SquaredNorm(v)
  {
    DotScaleLeft(c, v, Scale(c, v));
    DotScaleRight(c, v, v);
  }

  /** Expansion of the squared norm of a sum. */
  lemma {:induction false} SquaredNormAdd(u: Vector, v: Vector)
    requires |u| == |v|
    ensures SquaredNorm(Add(u, v)) == SquaredNorm(u) + 2.0 * Dot(u, v) + SquaredNorm(v)
  {
    DotAddLeft(u, v, Add(u, v));
    DotAddRight(u, u, v);
    DotAddRight(v, u, v);
    DotSymmetric(v, u);
  }

  /** Expansion of the squared norm of a difference. */
  lemma {:induction false} SquaredNormSub(u: Vector, v: Vector)
    requires |u| == |v|
    ensures SquaredNorm(Sub(u, v)) == SquaredNorm(u) - 2.0 * Dot(u, v) + SquaredNorm(v)
  {
    DotSubLeft(u, v, Sub(u, v));
    DotSubRight(u, u, v);
    DotSubRight(v, u, v);
    DotSymmetric(v, u);
  }

  /** Under a lawful square root, the norm is non-negative and squares to the squared norm. */
  lemma {:induction false} NormSquared(t: Transcendentals, v: Vector)
    requires Lawful(t)
    ensures 0.0 <= Norm(t, v) && Norm(t, v) * Norm(t, v) == SquaredNorm(v)
  {
    SquaredNormNonnegative(v);
  }

  lemma {:induction false} ScaleOne(v: Vector)
    ensures Scale(1.0, v) == v
  {
  }

  lemma {:induction false} ScaleZero(v: Vector)
    ensures Scale(0.0, v) == Zeros(|v|)
  {
  }

  lemma {:induction false} SubZeros(v: Vector)
    ensures Sub(v, Zeros(|v|)) == v
  {
  }

  /** Elementwise division by a non-zero scalar is scaling by its reciprocal. */
  lemma {:induction false} DivideByIsScale(v: Vector, c: real)
    requires c != 0.0
    ensures DivideBy(v, c) == Scale(1.0 / c, v)
  {
    forall i | 0 <= i < |v|
      ensures DivideBy(v, c)[i] == Scale(1.0 / c, v)[i]
    {
      assert v[i] / c == (1.0 / c) * v[i];
    }
  }

  /** Expansion of `|c u + k w|^2`. */
  lemma {:induction false} SquaredNormCombination(c: real, u: Vector, k: real, w: Vector)
    requires |u| == |w|
    ensures SquaredNorm(Add(Scale(c, u), Scale(k, w)))
              == c * c * SquaredNorm(u) + 2.0 * (c * k * Dot(u, w)) + k * k * SquaredNorm(w)
  {
    var x, y := Scale(c, u), Scale(k, w);
    calc {
      SquaredNorm(Add(x, y));
    == { SquaredNormAdd(x, y); }
      SquaredNorm(x) + 2.0 * Dot(x, y) + SquaredNorm(y);
    == { SquaredNormScale(c, u); }
      c * c * SquaredNorm(u) + 2.0 * Dot(x, y) + SquaredNorm(y);
    == { SquaredNormScale(k, w); }
      c * c * SquaredNorm(u) + 2.0 * Dot(x, y) + k * k * SquaredNorm(w);
    == { DotOfScales(c, u, k, w); }
      c * c * SquaredNorm(u) + 2.0 * (c * k * Dot(u, w)) + k * k * SquaredNorm(w);
    }
  }

  /** Expansion of `|c u - k w|^2`. */
  lemma {:induction false} SquaredNormDifference(c: real, u: Vector, k: real, w: Vector)
    requires |u| == |w|
    ensures SquaredNorm(Sub(Scale(c, u), Scale(k, w)))
              == c * c * SquaredNorm(u) - 2.0 * (c * k * Dot(u, w)) + k * k * SquaredNorm(w)
  {
    var x, y := Scale(c, u), Scale(k, w);
    calc {
      SquaredNorm(Sub(x, y));
    == { SquaredNormSub(x, y); }
      SquaredNorm(x) - 2.0 * Dot(x, y) + SquaredNorm(y);
    == { SquaredNormScale(c, u); }
      c * c * SquaredNorm(u) - 2.0 * Dot(x, y) + SquaredNorm(y);
    == { SquaredNormScale(k, w); }
      c * c * SquaredNorm(u) - 2.0 * Dot(x, y) + k * k * SquaredNorm(w);
    == { DotOfScales(c, u, k, w); }
      c * c * SquaredNorm(u) - 2.0 * (c * k * Dot(u, w)) + k * k * SquaredNorm(w);
    }
  }

  lemma {:induction false} DotOfScales(c: real, u: Vector, k: real, w: Vector)
    requires |u| == |w|
    ensures Dot(Scale(c, u), Scale(k, w)) == c * k * Dot(u, w)
  {
    DotScaleLeft(c, u, Scale(k, w));
    DotScaleRight(k, u, w);
    Associate(c, k, Dot(u, w));
  }

  lemma Associate(c: real, k: real, d: real)
    ensures c * (k * d) == c * k * d
  {
  }

  /** Cauchy-Schwarz for unit vectors: their inner product lies in [-1, 1]. */
  lemma {:induction false} UnitDotBounds(u: Vector, v: Vector)
    requires |u| == |v| && SquaredNorm(u) == 1.0 && SquaredNorm(v) == 1.0
    ensures -1.0 <= Dot(u, v) <= 1.0
  {
    SquaredNormAdd(u, v);
    SquaredNormSub(u, v);
    SquaredNormNonnegative(Add(u, v));
    SquaredNormNonnegative(Sub(u, v));
  }
}
