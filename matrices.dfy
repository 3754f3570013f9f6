/** Dense real matrices, stored as sequences of rows, and the products the
    linear-algebra backend forms with them. */
module Matrices {
  import opened Vectors

  type Matrix = seq<seq<real>>

  /** `m` has `rows` rows of `cols` entries each. */
  predicate Shaped(m: Matrix, rows: nat, cols: nat) {
    |m| == rows && forall i :: 0 <= i < rows ==> |m[i]| == cols
  }

  function Transpose(m: Matrix, rows: nat, cols: nat): (r: Matrix)
    requires Shaped(m, rows, cols)
    ensures Shaped(r, cols, rows)
    ensures forall i, j :: 0 <= i < cols && 0 <= j < rows ==> r[i][j] == m[j][i]
  {
    seq(cols, i requires 0 <= i < cols => seq(rows, j requires 0 <= j < rows => m[j][i]))
  }

  function Column(m: Matrix, rows: nat, cols: nat, j: nat): (r: Vector)
    requires Shaped(m, rows, cols) && j < cols
    ensures |r| == rows
    ensures forall i :: 0 <= i < rows ==> r[i] == m[i][j]
  {
    seq(rows, i requires 0 <= i < rows => m[i][j])
  }

  /** The matrix product: entry `(i, j)` is row `i` of `a` against column `j` of `b`. */
  function MatMul(a: Matrix, b: Matrix, rows: nat, inner: nat, cols: nat): (r: Matrix)
    requires Shaped(a, rows, inner) && Shaped(b, inner, cols)
    ensures Shaped(r, rows, cols)
    ensures forall i, j :: 0 <= i < rows && 0 <= j < cols ==>
              r[i][j] == Dot(a[i], Column(b, inner, cols, j))
  {
    seq(rows, i requires 0 <= i < rows =>
      seq(cols, j requires 0 <= j < cols => Dot(a[i], Column(b, inner, cols, j))))
  }

  /** `numpy.diag` of a vector: the square matrix with `d` on its diagonal. */
  function Diag(d: seq<real>): (r: Matrix)
    ensures Shaped(r, |d|, |d|)
    ensures forall i, j :: 0 <= i < |d| && 0 <= j < |d| ==> r[i][j] == (if i == j then d[i] else 0.0)
  {
    seq(|d|, i requires 0 <= i < |d| => seq(|d|, j requires 0 <= j < |d| => if i == j then d[i] else 0.0))
  }

  predicate Symmetric(m: Matrix, n: nat)
    requires Shaped(m, n, n)
  {
    forall i, j :: 0 <= i < n && 0 <= j < n ==> m[i][j] == m[j][i]
  }

  /** `V diag(d) V^T`, the matrix with eigenvectors the columns of `V` and
      eigenvalues `d`. */
  function Congruence(v: Matrix, d: seq<real>): (r: Matrix)
    requires Shaped(v, |d|, |d|)
    ensures Shaped(r, |d|, |d|)
  {
    var n := |d|;
    MatMul(MatMul(v, Diag(d), n, n, n), Transpose(v, n, n), n, n, n)
  }

  /** `u` weighted entry by entry by `d`. */
  function Weighted(u: Vector, d: seq<real>): (r: Vector)
    requires |u| == |d|
    ensures |r| == |u|
    ensures forall k :: 0 <= k < |u| ==> r[k] == u[k] * d[k]
  {
    seq(|u|, k requires 0 <= k < |u| => u[k] * d[k])
  }

  // ---------------------------------------------------------------------------
  // Lemmas

  /** A vector with a single possibly non-zero entry `k` picks out `u[k]`. */
  lemma {:induction false} DotSingleEntry(u: Vector, w: Vector, k: nat)
    requires |u| == |w| && k < |u|
    requires forall j :: 0 <= j < |w| && j != k ==> w[j] == 0.0
    ensures Dot(u, w) == u[k] * w[k]
    decreases |u|
  {
    if k == 0 {
      DotZeroRight(u[1..], w[1..]);
    } else {
      DotSingleEntry(u[1..], w[1..], k - 1);
    }
  }

  lemma {:induction false} DotZeroRight(u: Vector, w: Vector)
    requires |u| == |w|
    requires forall j :: 0 <= j < |w| ==> w[j] == 0.0
    ensures Dot(u, w) == 0.0
    decreases |u|
  {
    if |u| != 0 {
      DotZeroRight(u[1..], w[1..]);
    }
  }

  /** Multiplying by a diagonal matrix on the right weights the columns. */
  lemma {:induction false} MatMulDiag(v: Matrix, d: seq<real>)
    requires Shaped(v, |d|, |d|)
    ensures forall i :: 0 <= i < |d| ==> MatMul(v, Diag(d), |d|, |d|, |d|)[i] == Weighted(v[i], d)
  {
    var n := |d|;
    var vd := MatMul(v, Diag(d), n, n, n);
    forall i, k | 0 <= i < n && 0 <= k < n
      ensures vd[i][k] == v[i][k] * d[k]
    {
      var col := Column(Diag(d), n, n, k);
      DotSingleEntry(v[i], col, k);
    }
  }

  /** The weighted inner product is symmetric in its two vectors. */
  lemma {:induction false} WeightedDotSymmetric(u: Vector, w: Vector, d: seq<real>)
    requires |u| == |w| == |d|
    ensures Dot(Weighted(u, d), w) == Dot(Weighted(w, d), u)
    decreases |u|
  {
    if |u| != 0 {
      WeightedTail(u, d);
      WeightedTail(w, d);
      WeightedDotSymmetric(u[1..], w[1..], d[1..]);
      assert u[0] * d[0] * w[0] == w[0] * d[0] * u[0];
    }
  }

  lemma {:induction false} WeightedTail(u: Vector, d: seq<real>)
    requires |u| == |d| && |u| != 0
    ensures Weighted(u, d)[1..] == Weighted(u[1..], d[1..])
  {
    assert forall k :: 0 <= k < |u| - 1 ==> Weighted(u, d)[1..][k] == Weighted(u[1..], d[1..])[k];
  }

  /** Entry `(i, j)` of `V diag(d) V^T` is the weighted inner product of rows `i` and `j`. */
  lemma {:induction false} CongruenceEntry(v: Matrix, d: seq<real>, i: nat, j: nat)
    requires Shaped(v, |d|, |d|) && i < |d| && j < |d|
    ensures Congruence(v, d)[i][j] == Dot(Weighted(v[i], d), v[j])
  {
    var n := |d|;
    MatMulDiag(v, d);
    assert Column(Transpose(v, n, n), n, n, j) == v[j];
  }

  /** `V diag(d) V^T` is symmetric for every `V` and `d`. */
  lemma {:induction false} CongruenceSymmetric(v: Matrix, d: seq<real>)
    requires Shaped(v, |d|, |d|)
    ensures Symmetric(Congruence(v, d), |d|)
  {
    forall i, j | 0 <= i < |d| && 0 <= j < |d|
      ensures Congruence(v, d)[i][j] == Congruence(v, d)[j][i]
    {
      CongruenceEntry(v, d, i, j);
      CongruenceEntry(v, d, j, i);
      WeightedDotSymmetric(v[i], v[j], d);
    }
  }

  /** Entry `(i, j)` of `L L^T` is the inner product of rows `i` and `j` of `L`:
      the product is symmetric with a non-negative diagonal. */
  lemma {:induction false} GramSymmetric(l: Matrix, n: nat)
    requires Shaped(l, n, n)
    ensures Symmetric(MatMul(l, Transpose(l, n, n), n, n, n), n)
    ensures forall i :: 0 <= i < n ==> 0.0 <= MatMul(l, Transpose(l, n, n), n, n, n)[i][i]
  {
    var g := MatMul(l, Transpose(l, n, n), n, n, n);
    forall i, j | 0 <= i < n && 0 <= j < n
      ensures g[i][j] == Dot(l[i], l[j])
    {
      assert Column(Transpose(l, n, n), n, n, j) == l[j];
    }
    forall i, j | 0 <= i < n && 0 <= j < n
      ensures g[i][j] == g[j][i]
    {
      DotSymmetric(l[i], l[j]);
    }
    forall i | 0 <= i < n
      ensures 0.0 <= g[i][i]
    {
      SquaredNormNonnegative(l[i]);
    }
  }

  // ---------------------------------------------------------------------------
  // Algebra of the matrix product

  function Identity(n: nat): (r: Matrix)
    ensures Shaped(r, n, n)
    ensures forall i, j :: 0 <= i < n && 0 <= j < n ==> r[i][j] == (if i == j then 1.0 else 0.0)
  {
    Diag(seq(n, _ => 1.0))
  }

  /** Entrywise sum of two matrices of one shape. */
  function MatAdd(a: Matrix, b: Matrix, rows: nat, cols: nat): (r: Matrix)
    requires Shaped(a, rows, cols) && Shaped(b, rows, cols)
    ensures Shaped(r, rows, cols)
    ensures forall i, j :: 0 <= i < rows && 0 <= j < cols ==> r[i][j] == a[i][j] + b[i][j]
  {
    seq(rows, i requires 0 <= i < rows => Add(a[i], b[i]))
  }

  /** `V^T V = V V^T = I`: the columns of `V` are an orthonormal basis. */
  predicate Orthogonal(v: Matrix, n: nat)
    requires Shaped(v, n, n)
  {
    && MatMul(Transpose(v, n, n), v, n, n, n) == Identity(n)
    && MatMul(v, Transpose(v, n, n), n, n, n) == Identity(n)
  }

  /** The row vector `u b`. */
  function RowTimes(u: Vector, b: Matrix, p: nat, q: nat): (r: Vector)
    requires |u| == p && Shaped(b, p, q)
    ensures |r| == q
    ensures forall l :: 0 <= l < q ==> r[l] == Dot(u, Column(b, p, q, l))
  {
    seq(q, l requires 0 <= l < q => Dot(u, Column(b, p, q, l)))
  }

  /** The column vector `b w`. */
  function TimesColumn(b: Matrix, w: Vector, p: nat, q: nat): (r: Vector)
    requires Shaped(b, p, q) && |w| == q
    ensures |r| == p
    ensures forall k :: 0 <= k < p ==> r[k] == Dot(b[k], w)
  {
    seq(p, k requires 0 <= k < p => Dot(b[k], w))
  }

  /** `(u b) w == u (b w)`: the two orders of summing `u_k b_kl w_l`. */
  lemma {:induction false} BilinearExchange(u: Vector, b: Matrix, w: Vector, p: nat, q: nat)
    requires |u| == p && Shaped(b, p, q) && |w| == q
    ensures Dot(RowTimes(u, b, p, q), w) == Dot(u, TimesColumn(b, w, p, q))
    decreases p
  {
    var ub := RowTimes(u, b, p, q);
    if p == 0 {
      forall l | 0 <= l < q
        ensures ub[l] == 0.0
      {
        assert |Column(b, p, q, l)| == 0;
      }
      assert ub == Zeros(q);
      DotZerosLeft(w);
    } else {
      var head, tail := Scale(u[0], b[0]), RowTimes(u[1..], b[1..], p - 1, q);
      var bw := TimesColumn(b, w, p, q);
      calc {
        Dot(ub, w);
      == { RowTimesStep(u, b, p, q); }
        Dot(Add(head, tail), w);
      == { DotAddLeft(head, tail, w); }
        Dot(head, w) + Dot(tail, w);
      == { DotScaleLeft(u[0], b[0], w); BilinearExchange(u[1..], b[1..], w, p - 1, q); }
        u[0] * Dot(b[0], w) + Dot(u[1..], TimesColumn(b[1..], w, p - 1, q));
      == { assert bw[1..] == TimesColumn(b[1..], w, p - 1, q); }
        Dot(u, bw);
      }
    }
  }

  /** The first row of `b` splits off `u b`: `u b = u_0 b_0 + u' b'`. */
  lemma {:induction false} RowTimesStep(u: Vector, b: Matrix, p: nat, q: nat)
    requires |u| == p && Shaped(b, p, q) && 0 < p
    ensures RowTimes(u, b, p, q) == Add(Scale(u[0], b[0]), RowTimes(u[1..], b[1..], p - 1, q))
  {
    var tail := RowTimes(u[1..], b[1..], p - 1, q);
    forall l | 0 <= l < q
      ensures RowTimes(u, b, p, q)[l] == u[0] * b[0][l] + tail[l]
    {
      assert Column(b, p, q, l)[1..] == Column(b[1..], p - 1, q, l);
    }
  }

  /** Two matrices of one shape with equal entries are equal. */
  lemma {:induction false} EqualEntries(a: Matrix, b: Matrix, m: nat, n: nat)
    requires Shaped(a, m, n) && Shaped(b, m, n)
    requires forall i, j :: 0 <= i < m && 0 <= j < n ==> a[i][j] == b[i][j]
    ensures a == b
  {
    forall i | 0 <= i < m
      ensures a[i] == b[i]
    {
      assert forall j :: 0 <= j < n ==> a[i][j] == b[i][j];
    }
  }

  /** The matrix product is associative. */
  lemma {:induction false} MatMulAssociative(a: Matrix, b: Matrix, c: Matrix, m: nat, p: nat, q: nat, s: nat)
    requires Shaped(a, m, p) && Shaped(b, p, q) && Shaped(c, q, s)
    ensures MatMul(MatMul(a, b, m, p, q), c, m, q, s) == MatMul(a, MatMul(b, c, p, q, s), m, p, s)
  {
    var ab := MatMul(a, b, m, p, q);
    var bc := MatMul(b, c, p, q, s);
    var left := MatMul(ab, c, m, q, s);
    var right := MatMul(a, bc, m, p, s);
    forall i, j | 0 <= i < m && 0 <= j < s
      ensures left[i][j] == right[i][j]
    {
      var w := Column(c, q, s, j);
      assert ab[i] == RowTimes(a[i], b, p, q);
      assert Column(bc, p, s, j) == TimesColumn(b, w, p, q);
      BilinearExchange(a[i], b, w, p, q);
    }
    EqualEntries(left, right, m, s);
  }

  lemma {:induction false} MatMulIdentityLeft(x: Matrix, m: nat, n: nat)
    requires Shaped(x, m, n)
    ensures MatMul(Identity(m), x, m, m, n) == x
  {
    var r := MatMul(Identity(m), x, m, m, n);
    forall i, j | 0 <= i < m && 0 <= j < n
      ensures r[i][j] == x[i][j]
    {
      var col := Column(x, m, n, j);
      DotSymmetric(Identity(m)[i], col);
      DotSingleEntry(col, Identity(m)[i], i);
    }
    EqualEntries(r, x, m, n);
  }

  lemma {:induction false} MatMulIdentityRight(x: Matrix, m: nat, n: nat)
    requires Shaped(x, m, n)
    ensures MatMul(x, Identity(n), m, n, n) == x
  {
    var r := MatMul(x, Identity(n), m, n, n);
    forall i, j | 0 <= i < m && 0 <= j < n
      ensures r[i][j] == x[i][j]
    {
      DotSingleEntry(x[i], Column(Identity(n), n, n, j), j);
    }
    EqualEntries(r, x, m, n);
  }

  /** `(a + b) c == a c + b c`. */
  lemma {:induction false} MatMulAddLeft(a: Matrix, b: Matrix, c: Matrix, m: nat, p: nat, q: nat)
    requires Shaped(a, m, p) && Shaped(b, m, p) && Shaped(c, p, q)
    ensures MatMul(MatAdd(a, b, m, p), c, m, p, q)
              == MatAdd(MatMul(a, c, m, p, q), MatMul(b, c, m, p, q), m, q)
  {
    var left := MatMul(MatAdd(a, b, m, p), c, m, p, q);
    var right := MatAdd(MatMul(a, c, m, p, q), MatMul(b, c, m, p, q), m, q);
    forall i, j | 0 <= i < m && 0 <= j < q
      ensures left[i][j] == right[i][j]
    {
      assert MatAdd(a, b, m, p)[i] == Add(a[i], b[i]);
      DotAddLeft(a[i], b[i], Column(c, p, q, j));
    }
    EqualEntries(left, right, m, q);
  }

  /** `a (b + c) == a b + a c`. */
  lemma {:induction false} MatMulAddRight(a: Matrix, b: Matrix, c: Matrix, m: nat, p: nat, q: nat)
    requires Shaped(a, m, p) && Shaped(b, p, q) && Shaped(c, p, q)
    ensures MatMul(a, MatAdd(b, c, p, q), m, p, q)
              == MatAdd(MatMul(a, b, m, p, q), MatMul(a, c, m, p, q), m, q)
  {
    var left := MatMul(a, MatAdd(b, c, p, q), m, p, q);
    var right := MatAdd(MatMul(a, b, m, p, q), MatMul(a, c, m, p, q), m, q);
    forall i, j | 0 <= i < m && 0 <= j < q
      ensures left[i][j] == right[i][j]
    {
      assert Column(MatAdd(b, c, p, q), p, q, j) == Add(Column(b, p, q, j), Column(c, p, q, j));
      DotAddRight(a[i], Column(b, p, q, j), Column(c, p, q, j));
    }
    EqualEntries(left, right, m, q);
  }

  /** Conjugation by an orthogonal `V` respects products:
      `(V s V^T)(V t V^T) == V (s t) V^T`. */
  lemma {:induction false} ConjugateProduct(v: Matrix, s: Matrix, t: Matrix, n: nat)
    requires Shaped(v, n, n) && Shaped(s, n, n) && Shaped(t, n, n) && Orthogonal(v, n)
    ensures var vt := Transpose(v, n, n);
            MatMul(MatMul(MatMul(v, s, n, n, n), vt, n, n, n), MatMul(MatMul(v, t, n, n, n), vt, n, n, n), n, n, n)
              == MatMul(MatMul(v, MatMul(s, t, n, n, n), n, n, n), vt, n, n, n)
  {
    var vt := Transpose(v, n, n);
    var vs := MatMul(v, s, n, n, n);
    var vtt := MatMul(v, t, n, n, n);
    var right := MatMul(vtt, vt, n, n, n);
    MatMulAssociative(vs, vt, right, n, n, n, n);
    MatMulAssociative(vt, vtt, vt, n, n, n, n);
    MatMulAssociative(vt, v, t, n, n, n, n);
    MatMulIdentityLeft(t, n, n);
    assert MatMul(vt, vtt, n, n, n) == t;
    assert MatMul(vt, right, n, n, n) == MatMul(t, vt, n, n, n);
    MatMulAssociative(vs, t, vt, n, n, n, n);
    MatMulAssociative(v, s, t, n, n, n, n);
  }

  /** Conjugation respects sums: `V s V^T + V t V^T == V (s + t) V^T`. */
  lemma {:induction false} ConjugateSum(v: Matrix, s: Matrix, t: Matrix, n: nat)
    requires Shaped(v, n, n) && Shaped(s, n, n) && Shaped(t, n, n)
    ensures var vt := Transpose(v, n, n);
            MatAdd(MatMul(MatMul(v, s, n, n, n), vt, n, n, n), MatMul(MatMul(v, t, n, n, n), vt, n, n, n), n, n)
              == MatMul(MatMul(v, MatAdd(s, t, n, n), n, n, n), vt, n, n, n)
  {
    var vt := Transpose(v, n, n);
    MatMulAddRight(v, s, t, n, n, n);
    MatMulAddLeft(MatMul(v, s, n, n, n), MatMul(v, t, n, n, n), vt, n, n, n);
  }

  /** Conjugating `V^T q V` back by an orthogonal `V` restores `q`. */
  lemma {:induction false} ConjugateUndo(v: Matrix, q: Matrix, n: nat)
    requires Shaped(v, n, n) && Shaped(q, n, n) && Orthogonal(v, n)
    ensures var vt := Transpose(v, n, n);
            MatMul(MatMul(v, MatMul(MatMul(vt, q, n, n, n), v, n, n, n), n, n, n), vt, n, n, n) == q
  {
    var vt := Transpose(v, n, n);
    var vtq := MatMul(vt, q, n, n, n);
    MatMulAssociative(v, vtq, v, n, n, n, n);
    MatMulAssociative(v, vt, q, n, n, n, n);
    MatMulIdentityLeft(q, n, n);
    assert MatMul(v, vtq, n, n, n) == q;
    MatMulAssociative(q, v, vt, n, n, n, n);
    MatMulIdentityRight(q, n, n);
  }

  /** Entry `(i, j)` of `diag(d) x` is `d[i] x[i][j]`. */
  lemma {:induction false} DiagTimesEntry(d: seq<real>, x: Matrix, n: nat, i: nat, j: nat)
    requires |d| == n && Shaped(x, n, n) && i < n && j < n
    ensures MatMul(Diag(d), x, n, n, n)[i][j] == d[i] * x[i][j]
  {
    var col := Column(x, n, n, j);
    DotSymmetric(Diag(d)[i], col);
    DotSingleEntry(col, Diag(d)[i], i);
  }

  /** Entry `(i, j)` of `x diag(d)` is `x[i][j] d[j]`. */
  lemma {:induction false} TimesDiagEntry(d: seq<real>, x: Matrix, n: nat, i: nat, j: nat)
    requires |d| == n && Shaped(x, n, n) && i < n && j < n
    ensures MatMul(x, Diag(d), n, n, n)[i][j] == x[i][j] * d[j]
  {
    DotSingleEntry(x[i], Column(Diag(d), n, n, j), j);
  }

  /** A matrix whose entries `x[i][j]` satisfy `d[i] x[i][j] + x[i][j] d[j] == q[i][j]`
      solves `diag(d) x + x diag(d) == q`. */
  lemma {:induction false} DiagonalSolution(d: seq<real>, x: Matrix, q: Matrix, n: nat)
    requires |d| == n && Shaped(x, n, n) && Shaped(q, n, n)
    requires forall i, j :: 0 <= i < n && 0 <= j < n ==> d[i] * x[i][j] + x[i][j] * d[j] == q[i][j]
    ensures MatAdd(MatMul(Diag(d), x, n, n, n), MatMul(x, Diag(d), n, n, n), n, n) == q
  {
    var sum := MatAdd(MatMul(Diag(d), x, n, n, n), MatMul(x, Diag(d), n, n, n), n, n);
    forall i, j | 0 <= i < n && 0 <= j < n
      ensures sum[i][j] == q[i][j]
    {
      DiagTimesEntry(d, x, n, i, j);
      TimesDiagEntry(d, x, n, i, j);
    }
    EqualEntries(sum, q, n, n);
  }

  /** If `x` solves the Sylvester equation for `diag(d)` and `V^T q V`, then
      `V x V^T` solves it for `V diag(d) V^T` and `q`, `V` being orthogonal. */
  lemma {:induction false} ConjugateSylvester(v: Matrix, d: seq<real>, x: Matrix, q: Matrix, n: nat)
    requires |d| == n && Shaped(v, n, n) && Shaped(x, n, n) && Shaped(q, n, n) && Orthogonal(v, n)
    requires MatAdd(MatMul(Diag(d), x, n, n, n), MatMul(x, Diag(d), n, n, n), n, n)
               == MatMul(MatMul(Transpose(v, n, n), q, n, n, n), v, n, n, n)
    ensures var a := Congruence(v, d);
            var y := MatMul(MatMul(v, x, n, n, n), Transpose(v, n, n), n, n, n);
            MatAdd(MatMul(a, y, n, n, n), MatMul(y, a, n, n, n), n, n) == q
  {
    var vt := Transpose(v, n, n);
    var a := Congruence(v, d);
    var y := MatMul(MatMul(v, x, n, n, n), vt, n, n, n);
    var lx := MatMul(Diag(d), x, n, n, n);
    var xl := MatMul(x, Diag(d), n, n, n);
    var tq := MatMul(MatMul(vt, q, n, n, n), v, n, n, n);
    assert MatMul(a, y, n, n, n) == MatMul(MatMul(v, lx, n, n, n), vt, n, n, n) by {
      ConjugateProduct(v, Diag(d), x, n);
    }
    assert MatMul(y, a, n, n, n) == MatMul(MatMul(v, xl, n, n, n), vt, n, n, n) by {
      ConjugateProduct(v, x, Diag(d), n);
    }
    assert MatAdd(MatMul(MatMul(v, lx, n, n, n), vt, n, n, n), MatMul(MatMul(v, xl, n, n, n), vt, n, n, n), n, n)
           == MatMul(MatMul(v, tq, n, n, n), vt, n, n, n) by {
      ConjugateSum(v, lx, xl, n);
    }
    ConjugateUndo(v, q, n);
  }
}
