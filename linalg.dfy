/** The NumPy linear-algebra backend (geomstats/_backend/numpy/linalg.py):
    the symmetry test, the matrix logarithm, the shortcut of the Sylvester
    solver and the positive-definiteness test.

    `eigh`, `cholesky`, SciPy's `logm` and `solve_sylvester` are supplied by
    the caller as functions (oracles); the model states what the backend
    does with their results. */
module Linalg {
  import opened Numerics
  import opened Exceptions
  import opened Matrices
  import Vectors

  /** An array as the backend dispatches on it: one matrix (rank 2), a stack
      of matrices (rank 3), or an array of any other rank. */
  datatype Array =
    | Rank2(rows: nat, cols: nat, m: Matrix)
    | Rank3(count: nat, rows: nat, cols: nat, ms: seq<Matrix>)
    | OtherRank(ndim: nat)

  predicate WellFormed(x: Array) {
    match x
    case Rank2(rows, cols, m) => Shaped(m, rows, cols)
    case Rank3(count, rows, cols, ms) =>
      |ms| == count && forall k :: 0 <= k < count ==> Shaped(ms[k], rows, cols)
    case OtherRank(ndim) => ndim != 2 && ndim != 3
  }

  function Ndim(x: Array): nat {
    match x
    case Rank2(_, _, _) => 2
    case Rank3(_, _, _, _) => 3
    case OtherRank(ndim) => ndim
  }

  /** A well-formed matrix or stack of matrices whose matrices are square. */
  predicate SquareStack(x: Array) {
    WellFormed(x) && (x.Rank2? || x.Rank3?) && x.rows == x.cols
  }

  /** `to_ndarray(x, to_ndim=3)`: a matrix becomes a stack of one. */
  function Stacked(x: Array): (r: Array)
    requires x.Rank2? || x.Rank3?
    ensures r.Rank3? && r.rows == x.rows && r.cols == x.cols
    ensures WellFormed(x) ==> WellFormed(r)
  {
    if x.Rank2? then Rank3(1, x.rows, x.cols, [x.m]) else x
  }

  // ---------------------------------------------------------------------------
  // Symmetry test

  const SYMMETRY_TOL: real := 1e-12

  /** `numpy.abs(a - b)`, entry by entry. */
  function AbsDifference(a: Matrix, b: Matrix, n: nat): (r: Matrix)
    requires Shaped(a, n, n) && Shaped(b, n, n)
    ensures Shaped(r, n, n)
    ensures forall i, j :: 0 <= i < n && 0 <= j < n ==> r[i][j] == Abs(a[i][j] - b[i][j])
  {
    seq(n, i requires 0 <= i < n => seq(n, j requires 0 <= j < n => Abs(a[i][j] - b[i][j])))
  }

  /** `(m < tol).all()`. */
  predicate AllBelow(m: Matrix, n: nat, tol: real)
    requires Shaped(m, n, n)
  {
    forall i, j :: 0 <= i < n && 0 <= j < n ==> m[i][j] < tol
  }

  /** One matrix within `tol` of its transpose, entry by entry. */
  predicate NearlySymmetric(m: Matrix, n: nat, tol: real)
    requires Shaped(m, n, n)
    ensures NearlySymmetric(m, n, tol) <==>
              forall i, j :: 0 <= i < n && 0 <= j < n ==> Abs(m[i][j] - m[j][i]) < tol
  {
    AllBelow(AbsDifference(m, Transpose(m, n, n), n), n, tol)
  }

  /** `_is_symmetric`: every matrix of the stack is within `tol` of its
      transpose, entry by entry; a single matrix is checked as a stack of one. */
  function IsSymmetric(x: Array, tol: real): (r: bool)
    requires SquareStack(x)
    ensures x.Rank2? ==>
              (r <==> forall i, j :: 0 <= i < x.rows && 0 <= j < x.rows ==>
                        Abs(x.m[i][j] - x.m[j][i]) < tol)
    ensures x.Rank3? ==>
              (r <==> forall k, i, j :: 0 <= k < x.count && 0 <= i < x.rows && 0 <= j < x.rows ==>
                        Abs(x.ms[k][i][j] - x.ms[k][j][i]) < tol)
  {
    var s := Stacked(x);
    var n := s.rows;
    assert x.Rank2? ==> s.ms[0] == x.m;
    forall k :: 0 <= k < s.count ==> NearlySymmetric(s.ms[k], n, tol)
  }

  /** A stack of exactly symmetric matrices passes the test at every
      positive tolerance. */
  lemma {:induction false} ExactlySymmetricPasses(x: Array, tol: real)
    requires SquareStack(x) && 0.0 < tol
    requires forall k :: 0 <= k < Stacked(x).count ==> Symmetric(Stacked(x).ms[k], x.rows)
    ensures IsSymmetric(x, tol)
  {
    var s := Stacked(x);
    var n := s.rows;
    forall k | 0 <= k < s.count
      ensures NearlySymmetric(s.ms[k], n, tol)
    {
      assert Symmetric(s.ms[k], n);
    }
  }

  // ---------------------------------------------------------------------------
  // Matrix logarithm

  /** What `eigh` returns for one matrix: the eigenvalues, and the
      eigenvectors as the columns of a matrix. */
  datatype Eigen = Eigen(values: seq<real>, vectors: Matrix)

  /** `eigh` gives `n` eigenvalues and an `n x n` matrix for every matrix of the stack. */
  predicate EighShaped(eigh: Matrix -> Eigen, x: Array)
    requires SquareStack(x)
  {
    var s := Stacked(x);
    forall k :: 0 <= k < s.count ==>
      |eigh(s.ms[k]).values| == s.rows && Shaped(eigh(s.ms[k]).vectors, s.rows, s.rows)
  }

  /** The general logarithm keeps the shape of every matrix of the stack. */
  predicate LogmShaped(general: Matrix -> Matrix, x: Array)
    requires SquareStack(x)
  {
    var s := Stacked(x);
    forall k :: 0 <= k < s.count ==> Shaped(general(s.ms[k]), s.rows, s.rows)
  }

  /** `logm` uses the eigendecomposition when the whole stack passes the
      symmetry test and every eigenvalue of every matrix is positive. */
  predicate UsesEigenPath(x: Array, eigh: Matrix -> Eigen)
    requires SquareStack(x) && EighShaped(eigh, x)
  {
    && IsSymmetric(x, SYMMETRY_TOL)
    && var s := Stacked(x);
       forall k, i :: 0 <= k < s.count && 0 <= i < s.rows ==> eigh(s.ms[k]).values[i] > 0.0
  }

  /** `V diag(log(lambda)) V^T`. */
  function EigenLog(t: Transcendentals, e: Eigen, n: nat): (r: Matrix)
    requires |e.values| == n && Shaped(e.vectors, n, n)
    ensures Shaped(r, n, n)
  {
    Congruence(e.vectors, seq(n, i requires 0 <= i < n => Log(t, e.values[i])))
  }

  /** `logm`: a matrix in, a matrix out; a stack in, a stack of as many out. */
  function Logm(t: Transcendentals, x: Array, eigh: Matrix -> Eigen, general: Matrix -> Matrix): (r: Array)
    requires SquareStack(x) && EighShaped(eigh, x) && LogmShaped(general, x)
    ensures Ndim(r) == Ndim(x)
    ensures SquareStack(r) && r.rows == x.rows
    ensures r.Rank3? ==> r.count == x.count
    ensures UsesEigenPath(x, eigh) ==>
              forall k :: 0 <= k < Stacked(x).count ==>
                Stacked(r).ms[k] == EigenLog(t, eigh(Stacked(x).ms[k]), x.rows)
    ensures !UsesEigenPath(x, eigh) ==>
              forall k :: 0 <= k < Stacked(x).count ==>
                Stacked(r).ms[k] == general(Stacked(x).ms[k])
  {
    var s := Stacked(x);
    var n := s.rows;
    var results :=
      if UsesEigenPath(x, eigh)
      then seq(s.count, k requires 0 <= k < s.count => EigenLog(t, eigh(s.ms[k]), n))
      else seq(s.count, k requires 0 <= k < s.count => general(s.ms[k]));
    if x.Rank2? then Rank2(n, n, results[0]) else Rank3(s.count, n, n, results)
  }

  /** On the eigen path, every matrix of the result is symmetric, so the
      result passes the symmetry test at any positive tolerance. */
  lemma {:induction false} LogmEigenPathSymmetric(t: Transcendentals, x: Array, eigh: Matrix -> Eigen,
                                                  general: Matrix -> Matrix, tol: real)
    requires SquareStack(x) && EighShaped(eigh, x) && LogmShaped(general, x)
    requires UsesEigenPath(x, eigh) && 0.0 < tol
    ensures forall k :: 0 <= k < Stacked(x).count ==>
              Symmetric(Stacked(Logm(t, x, eigh, general)).ms[k], x.rows)
    ensures IsSymmetric(Logm(t, x, eigh, general), tol)
  {
    var s := Stacked(x);
    var n := x.rows;
    var r := Logm(t, x, eigh, general);
    forall k | 0 <= k < s.count
      ensures Symmetric(Stacked(r).ms[k], n)
    {
      var e := eigh(s.ms[k]);
      CongruenceSymmetric(e.vectors, seq(n, i requires 0 <= i < n => Log(t, e.values[i])));
    }
    ExactlySymmetricPasses(r, tol);
  }

  // ---------------------------------------------------------------------------
  // Sylvester equation

  /** Threshold of the symmetry and eigenvalue tests of the shortcut. */
  const SYLVESTER_FLOOR: real := 1e-12

  /** `a.shape == b.shape`. */
  predicate SameShape(a: Array, b: Array) {
    match a
    case Rank2(rows, cols, _) => b.Rank2? && b.rows == rows && b.cols == cols
    case Rank3(count, rows, cols, _) => b.Rank3? && b.count == count && b.rows == rows && b.cols == cols
    case OtherRank(ndim) => b == OtherRank(ndim)
  }

  /** `numpy.all(a == b)` on arrays of one shape. */
  predicate AllEqual(a: Array, b: Array)
    requires SquareStack(a) && SquareStack(b) && SameShape(a, b)
  {
    var sa, sb := Stacked(a), Stacked(b);
    forall k, i, j :: 0 <= k < sa.count && 0 <= i < sa.rows && 0 <= j < sa.rows ==>
      sa.ms[k][i][j] == sb.ms[k][i][j]
  }

  /** The conditions under which `solve_sylvester` uses the eigendecomposition
      of `a`: equal shapes, equal entries, `a` symmetric within 1e-12 and every
      eigenvalue at least 1e-12. */
  predicate SylvesterShortcut(a: Array, b: Array, eigh: Matrix -> Eigen)
    requires SquareStack(a) && SquareStack(b) && EighShaped(eigh, a)
  {
    && SameShape(a, b)
    && AllEqual(a, b)
    && IsSymmetric(a, SYLVESTER_FLOOR)
    && var s := Stacked(a);
       forall k, i :: 0 <= k < s.count && 0 <= i < s.rows ==> eigh(s.ms[k]).values[i] >= SYLVESTER_FLOOR
  }

  /** `X[i][j] = tq[i][j] / (lambda_i + lambda_j)`: the Sylvester equation
      solved in the eigenbasis, where `A` is diagonal. */
  function SpectralQuotient(values: seq<real>, tq: Matrix, n: nat): (r: Matrix)
    requires |values| == n && Shaped(tq, n, n)
    ensures Shaped(r, n, n)
    ensures forall i, j :: 0 <= i < n && 0 <= j < n ==> r[i][j] == Quotient(tq[i][j], values[i] + values[j])
  {
    seq(n, i requires 0 <= i < n => seq(n, j requires 0 <= j < n =>
      Quotient(tq[i][j], values[i] + values[j])))
  }

  /** `V X V^T` where `X` is the spectral quotient of `V^T q V`. */
  function SylvesterBySpectrum(e: Eigen, q: Matrix, n: nat): (r: Matrix)
    requires |e.values| == n && Shaped(e.vectors, n, n) && Shaped(q, n, n)
    ensures Shaped(r, n, n)
  {
    var v := e.vectors;
    var vt := Transpose(v, n, n);
    var tildeQ := MatMul(MatMul(vt, q, n, n, n), v, n, n, n);
    MatMul(MatMul(v, SpectralQuotient(e.values, tildeQ, n), n, n, n), vt, n, n, n)
  }

  /** `solve_sylvester(a, b, q)`, solving `a x + x b = q`: the spectral
      formula when the shortcut applies, the general solver on the very same
      arguments otherwise. */
  function SolveSylvester(a: Array, b: Array, q: Array, eigh: Matrix -> Eigen,
                          general: (Array, Array, Array) -> Array): (r: Array)
    requires SquareStack(a) && SquareStack(b) && EighShaped(eigh, a)
    requires SameShape(a, b) ==> SquareStack(q) && SameShape(q, a)
    ensures !SylvesterShortcut(a, b, eigh) ==> r == general(a, b, q)
    ensures SylvesterShortcut(a, b, eigh) ==>
              && SquareStack(r) && SameShape(r, a)
              && forall k :: 0 <= k < Stacked(a).count ==>
                   Stacked(r).ms[k] == SylvesterBySpectrum(eigh(Stacked(a).ms[k]), Stacked(q).ms[k], a.rows)
  {
    if SylvesterShortcut(a, b, eigh) then
      var sa, sq := Stacked(a), Stacked(q);
      var n := sa.rows;
      var results := seq(sa.count, k requires 0 <= k < sa.count =>
                       SylvesterBySpectrum(eigh(sa.ms[k]), sq.ms[k], n));
      if a.Rank2? then Rank2(n, n, results[0]) else Rank3(sa.count, n, n, results)
    else
      general(a, b, q)
  }

  /** When the shortcut applies, every denominator `lambda_i + lambda_j` of
      the spectral formula is at least 2e-12, so no division is by zero. */
  lemma {:induction false} SylvesterDenominatorsPositive(a: Array, b: Array, eigh: Matrix -> Eigen)
    requires SquareStack(a) && SquareStack(b) && EighShaped(eigh, a)
    requires SylvesterShortcut(a, b, eigh)
    ensures forall k, i, j :: 0 <= k < Stacked(a).count && 0 <= i < a.rows && 0 <= j < a.rows ==>
              eigh(Stacked(a).ms[k]).values[i] + eigh(Stacked(a).ms[k]).values[j] >= 2.0 * SYLVESTER_FLOOR
  {
    var s := Stacked(a);
    forall k, i, j | 0 <= k < s.count && 0 <= i < a.rows && 0 <= j < a.rows
      ensures eigh(s.ms[k]).values[i] + eigh(s.ms[k]).values[j] >= 2.0 * SYLVESTER_FLOOR
    {
      assert eigh(s.ms[k]).values[i] >= SYLVESTER_FLOOR;
      assert eigh(s.ms[k]).values[j] >= SYLVESTER_FLOOR;
    }
  }

  /** `eigh` is right about `m`: `m = V diag(lambda) V^T` with `V` orthogonal. */
  predicate Diagonalises(e: Eigen, m: Matrix, n: nat) {
    && |e.values| == n && Shaped(e.vectors, n, n) && Shaped(m, n, n)
    && Orthogonal(e.vectors, n)
    && m == Congruence(e.vectors, e.values)
  }

  /** The spectral quotient undoes the weighting by `d[i] + d[j]`; with
      `DiagonalSolution`, it solves `diag(d) x + x diag(d) == tq`. */
  lemma {:induction false} SpectralQuotientWeights(d: seq<real>, tq: Matrix, x: Matrix, n: nat)
    requires |d| == n && Shaped(tq, n, n) && x == SpectralQuotient(d, tq, n)
    requires forall i, j :: 0 <= i < n && 0 <= j < n ==> d[i] + d[j] != 0.0
    ensures forall i, j :: 0 <= i < n && 0 <= j < n ==> d[i] * x[i][j] + x[i][j] * d[j] == tq[i][j]
  {
    forall i, j | 0 <= i < n && 0 <= j < n
      ensures d[i] * x[i][j] + x[i][j] * d[j] == tq[i][j]
    {
      var xij, di, dj := x[i][j], d[i], d[j];
      assert xij * (di + dj) == tq[i][j];
      assert di * xij + xij * dj == xij * (di + dj);
    }
  }

  /** The spectral formula solves `a x + x a = q` whenever `eigh` diagonalises
      `a` and no two eigenvalues sum to zero. */
  lemma {:induction false} SpectralFormulaSolves(e: Eigen, a: Matrix, q: Matrix, n: nat)
    requires Diagonalises(e, a, n) && Shaped(q, n, n)
    requires forall i, j :: 0 <= i < n && 0 <= j < n ==> e.values[i] + e.values[j] != 0.0
    ensures MatAdd(MatMul(a, SylvesterBySpectrum(e, q, n), n, n, n),
                   MatMul(SylvesterBySpectrum(e, q, n), a, n, n, n), n, n) == q
  {
    var v, d := e.vectors, e.values;
    var vt := Transpose(v, n, n);
    var tq := MatMul(MatMul(vt, q, n, n, n), v, n, n, n);
    var tx := SpectralQuotient(d, tq, n);
    SpectralQuotientWeights(d, tq, tx, n);
    DiagonalSolution(d, tx, tq, n);
    var x := SylvesterBySpectrum(e, q, n);
    assert x == MatMul(MatMul(v, tx, n, n, n), vt, n, n, n);
    assert a == Congruence(v, d);
    assert MatAdd(MatMul(a, x, n, n, n), MatMul(x, a, n, n, n), n, n) == q by {
      ConjugateSylvester(v, d, tx, q, n);
    }
  }

  /** When the shortcut applies and `eigh` diagonalises every matrix of `a`,
      `solve_sylvester` returns a solution of `a x + x b = q`, matrix by matrix. */
  lemma {:induction false} SolveSylvesterSolves(a: Array, b: Array, q: Array, eigh: Matrix -> Eigen,
                                                general: (Array, Array, Array) -> Array)
    requires SquareStack(a) && SquareStack(b) && EighShaped(eigh, a)
    requires SameShape(a, b) ==> SquareStack(q) && SameShape(q, a)
    requires SylvesterShortcut(a, b, eigh)
    requires forall k :: 0 <= k < Stacked(a).count ==> Diagonalises(eigh(Stacked(a).ms[k]), Stacked(a).ms[k], a.rows)
    ensures var sa, sb, sq := Stacked(a), Stacked(b), Stacked(q);
            var sx := Stacked(SolveSylvester(a, b, q, eigh, general));
            forall k :: 0 <= k < sa.count ==>
              MatAdd(MatMul(sa.ms[k], sx.ms[k], a.rows, a.rows, a.rows),
                     MatMul(sx.ms[k], sb.ms[k], a.rows, a.rows, a.rows), a.rows, a.rows) == sq.ms[k]
  {
    var sa, sb, sq := Stacked(a), Stacked(b), Stacked(q);
    var sx := Stacked(SolveSylvester(a, b, q, eigh, general));
    var n := a.rows;
    SylvesterDenominatorsPositive(a, b, eigh);
    forall k | 0 <= k < sa.count
      ensures MatAdd(MatMul(sa.ms[k], sx.ms[k], n, n, n), MatMul(sx.ms[k], sb.ms[k], n, n, n), n, n) == sq.ms[k]
    {
      EqualEntries(sb.ms[k], sa.ms[k], n, n);
      SpectralFormulaSolves(eigh(sa.ms[k]), sa.ms[k], sq.ms[k], n);
    }
  }

  // ---------------------------------------------------------------------------
  // Positive-definiteness test

  /** The message of the `LinAlgError` that Cholesky raises on a matrix that
      is not positive definite. */
  const NOT_PD_MESSAGE: string := "Matrix is not positive definite"

  /** What `cholesky` does with one matrix: a lower factor, or a `LinAlgError`. */
  datatype Cholesky = Factor(lower: Matrix) | Failure(message: string)

  /** `_is_single_matrix_pd`: true when the factorisation succeeds, false on
      the not-positive-definite error, and any other error propagates. */
  function IsSingleMatrixPd(mat: Matrix, cholesky: Matrix -> Cholesky): (r: Result<bool>)
    ensures r == Ok(true) <==> cholesky(mat).Factor?
    ensures r == Ok(false) <==> cholesky(mat) == Failure(NOT_PD_MESSAGE)
    ensures r.Raised? <==> cholesky(mat).Failure? && cholesky(mat).message != NOT_PD_MESSAGE
    ensures r.Raised? ==> r.error == LinAlgError(cholesky(mat).message)
  {
    match cholesky(mat)
    case Factor(_) => Ok(true)
    case Failure(message) =>
      if message == NOT_PD_MESSAGE then Ok(false) else Raised(LinAlgError(message))
  }

  /** `[_is_single_matrix_pd(m) for m in mats]`: the first error ends the list. */
  function IsSingleMatrixPdEach(mats: seq<Matrix>, cholesky: Matrix -> Cholesky): (r: Result<seq<bool>>)
    ensures r.Ok? <==> forall k :: 0 <= k < |mats| ==> IsSingleMatrixPd(mats[k], cholesky).Ok?
    ensures r.Ok? ==> |r.value| == |mats|
    ensures r.Ok? ==>
              forall k :: 0 <= k < |mats| ==> r.value[k] == IsSingleMatrixPd(mats[k], cholesky).value
    ensures r.Raised? ==>
              exists k :: 0 <= k < |mats| && IsSingleMatrixPd(mats[k], cholesky) == Raised(r.error) &&
                forall j :: 0 <= j < k ==> IsSingleMatrixPd(mats[j], cholesky).Ok?
    decreases |mats|
  {
    if |mats| == 0 then Ok([])
    else
      match IsSingleMatrixPd(mats[0], cholesky)
      case Raised(e) => Raised(e)
      case Ok(b) =>
        var rest := IsSingleMatrixPdEach(mats[1..], cholesky);
        if rest.Raised? then
          assert forall k :: 1 <= k < |mats| ==> mats[1..][k - 1] == mats[k];
          Raised(rest.error)
        else
          Ok([b] + rest.value)
  }

  /** What `is_pd` returns: a boolean, a list of booleans, or `None`. */
  datatype PdAnswer = Flag(b: bool) | Flags(bs: seq<bool>) | NoAnswer

  /** `is_pd`: dispatch on rank and squareness. */
  function IsPd(mat: Array, cholesky: Matrix -> Cholesky): (r: Result<PdAnswer>)
    requires WellFormed(mat)
    ensures mat.Rank2? && mat.rows != mat.cols ==> r == Ok(Flag(false))
    ensures mat.Rank3? && mat.rows != mat.cols ==> r == Ok(Flags(seq(mat.count, _ => false)))
    ensures mat.OtherRank? ==> r == Ok(NoAnswer)
    ensures mat.Rank2? && mat.rows == mat.cols ==>
              (r.Ok? <==> IsSingleMatrixPd(mat.m, cholesky).Ok?) &&
              (r.Ok? ==> r.value == Flag(IsSingleMatrixPd(mat.m, cholesky).value)) &&
              (r.Raised? ==> r == Raised(IsSingleMatrixPd(mat.m, cholesky).error))
    ensures mat.Rank3? && mat.rows == mat.cols ==>
              (r.Ok? <==> forall k :: 0 <= k < mat.count ==> IsSingleMatrixPd(mat.ms[k], cholesky).Ok?) &&
              (r.Ok? ==> r.value.Flags? && |r.value.bs| == mat.count) &&
              (r.Ok? ==> forall k :: 0 <= k < mat.count ==>
                           r.value.bs[k] == IsSingleMatrixPd(mat.ms[k], cholesky).value)
  {
    match mat
    case Rank2(rows, cols, m) =>
      if rows == cols then
        match IsSingleMatrixPd(m, cholesky)
        case Ok(b) => Ok(Flag(b))
        case Raised(e) => Raised(e)
      else Ok(Flag(false))
    case Rank3(count, rows, cols, ms) =>
      if rows == cols then
        match IsSingleMatrixPdEach(ms, cholesky)
        case Ok(bs) => Ok(Flags(bs))
        case Raised(e) => Raised(e)
      else Ok(Flags(seq(count, _ => false)))
    case OtherRank(_) => Ok(NoAnswer)
  }

  /** A matrix and the stack holding just that matrix get the same answer. */
  lemma {:induction false} IsPdStackOfOne(n: nat, m: Matrix, cholesky: Matrix -> Cholesky)
    requires Shaped(m, n, n)
    ensures IsPd(Rank2(n, n, m), cholesky).Ok? <==> IsPd(Rank3(1, n, n, [m]), cholesky).Ok?
    ensures IsPd(Rank2(n, n, m), cholesky).Ok? ==>
              IsPd(Rank3(1, n, n, [m]), cholesky).value == Flags([IsPd(Rank2(n, n, m), cholesky).value.b])
    ensures IsPd(Rank2(n, n, m), cholesky).Raised? ==>
              IsPd(Rank3(1, n, n, [m]), cholesky) == IsPd(Rank2(n, n, m), cholesky)
  {
    var single := IsSingleMatrixPd(m, cholesky);
    assert [m][1..] == [];
    if single.Ok? {
      assert IsSingleMatrixPdEach([m], cholesky) == Ok([single.value] + []);
    }
  }

  /** What `numpy.linalg.cholesky` promises when it succeeds: an `n`-by-`n`
      factor `L` whose product `L L^T` agrees with `mat` on and below the
      diagonal. The entries above the diagonal are never read, so nothing is
      said about them. */
  predicate FactorsLowerTriangle(cholesky: Matrix -> Cholesky, mat: Matrix, n: nat)
    requires Shaped(mat, n, n)
  {
    cholesky(mat).Factor? ==>
      Shaped(cholesky(mat).lower, n, n) &&
      var g := MatMul(cholesky(mat).lower, Transpose(cholesky(mat).lower, n, n), n, n, n);
      forall i, j :: 0 <= j <= i < n ==> mat[i][j] == g[i][j]
  }

  /** A matrix the test accepts has a non-negative diagonal, since its
      diagonal entries are squared lengths of rows of the factor. */
  lemma {:induction false} AcceptedDiagonalNonnegative(mat: Matrix, n: nat, cholesky: Matrix -> Cholesky)
    requires Shaped(mat, n, n) && FactorsLowerTriangle(cholesky, mat, n)
    requires IsSingleMatrixPd(mat, cholesky) == Ok(true)
    ensures forall i :: 0 <= i < n ==> 0.0 <= mat[i][i]
  {
    GramSymmetric(cholesky(mat).lower, n);
  }

  /** A symmetric matrix the test accepts is the Gram matrix `L L^T` of its
      factor, in full. */
  lemma {:induction false} AcceptedSymmetricIsGram(mat: Matrix, n: nat, cholesky: Matrix -> Cholesky)
    requires Shaped(mat, n, n) && FactorsLowerTriangle(cholesky, mat, n) && Symmetric(mat, n)
    requires IsSingleMatrixPd(mat, cholesky) == Ok(true)
    ensures Shaped(cholesky(mat).lower, n, n)
    ensures mat == MatMul(cholesky(mat).lower, Transpose(cholesky(mat).lower, n, n), n, n, n)
  {
    var l := cholesky(mat).lower;
    var g := MatMul(l, Transpose(l, n, n), n, n, n);
    GramSymmetric(l, n);
    forall i, j | 0 <= i < n && 0 <= j < n
      ensures mat[i][j] == g[i][j]
    {
      if i < j {
        assert mat[i][j] == mat[j][i] == g[j][i];
      }
    }
    EqualEntries(mat, g, n, n);
  }

  /** A matrix that is not symmetric, whose lower triangle is the identity's. */
  const SKEWED: Matrix := [[1.0, 5.0], [0.0, 1.0]]

  /** A factorisation that, like NumPy's, reads the lower triangle only: every
      matrix whose lower triangle is the identity's gets the factor `I`. */
  function LowerTriangleOracle(m: Matrix): Cholesky {
    if |m| == 2 && |m[0]| == 2 && |m[1]| == 2 && m[0][0] == 1.0 && m[1][0] == 0.0 && m[1][1] == 1.0
    then Factor([[1.0, 0.0], [0.0, 1.0]])
    else Failure(NOT_PD_MESSAGE)
  }

  /** As documented, `is_pd` does not check symmetry: with a factorisation
      that reads only the lower triangle, the non-symmetric `SKEWED` is
      reported positive definite. */
  lemma AcceptsNonSymmetric()
    ensures FactorsLowerTriangle(LowerTriangleOracle, SKEWED, 2)
    ensures IsPd(Rank2(2, 2, SKEWED), LowerTriangleOracle) == Ok(Flag(true))
    ensures !Symmetric(SKEWED, 2)
  {
    var l: Matrix := [[1.0, 0.0], [0.0, 1.0]];
    var g := MatMul(l, Transpose(l, 2, 2), 2, 2, 2);
    assert Column(Transpose(l, 2, 2), 2, 2, 0) == [1.0, 0.0];
    assert Column(Transpose(l, 2, 2), 2, 2, 1) == [0.0, 1.0];
    assert g[0][0] == Vectors.Dot([1.0, 0.0], [1.0, 0.0]) == 1.0;
    assert g[1][0] == Vectors.Dot([0.0, 1.0], [1.0, 0.0]) == 0.0;
    assert g[1][1] == Vectors.Dot([0.0, 1.0], [0.0, 1.0]) == 1.0;
    assert SKEWED[0][1] != SKEWED[1][0];
  }
}
