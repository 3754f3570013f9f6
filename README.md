# Hypersphere geometry and the NumPy linear-algebra backend of geomstats, in Dafny

This project models two parts of geomstats and proves properties of the model:

- the hypersphere `S^d` as the unit sphere of `R^(d+1)`, from `geomstats/geometry/hypersphere.py`:
  - class `Hypersphere`: membership test, regularization, projection onto the sphere and onto a tangent space, intrinsic and extrinsic coordinates;
  - class `HypersphereMetric`: inner product, squared norm, exponential and logarithm maps, geodesic distance, closed-form parallel transport, Christoffel symbols of the 2-sphere;
  - the module's Taylor coefficient tables;
- the decision logic of the NumPy linear-algebra backend, `geomstats/_backend/numpy/linalg.py`: the symmetry test, the eigen shortcut of `logm`, the eigen shortcut of `solve_sylvester`, and the positive-definiteness test `is_pd`.

Numbers are Dafny `real`s. Rounding is not modelled.

The transcendental functions (`sqrt`, `sin`, `cos`, `tan`, `arccos`, `log`) are supplied by the caller in a `Transcendentals` record. The ghost predicate `Numerics.Lawful` lists the only identities any proof uses:

- `sin^2 + cos^2 = 1`;
- `sqrt` is a non-negative square root on non-negative arguments;
- `arccos 1 = 0`;
- `cos(arccos c) = c` and `arccos c >= 0` on `[-1, 1]`;
- `tan * cos = sin` where `cos != 0`.

Division is `Numerics.Quotient`. It is exact for a non-zero divisor and yields 0 where IEEE arithmetic would give an infinity or NaN. No property below depends on that value.

A batch of points is a sequence of rows. Two batches combine row by row when their row counts are equal, or when one of them has a single row that is then repeated (`Vectors.RowAt`).

`eigh`, `cholesky`, SciPy's `logm` and SciPy's `solve_sylvester` are oracles, passed in as functions. The linear-algebra model states what the backend does with their answers.

Modules and files:

| file | module | contents |
|---|---|---|
| `numerics.dfy` | `Numerics` | transcendentals, `isclose`, `clip`, guarded division |
| `exceptions.dfy` | `Exceptions` | Python exceptions and a `Result` type |
| `vectors.dfy` | `Vectors` | vectors, batches, broadcasting, algebra of the dot product |
| `hypersphere.dfy` | `Hypersphere` | class `Hypersphere` |
| `hypersphere_metric.dfy` | `HypersphereMetric` | class `HypersphereMetric` and the Taylor tables |
| `matrices.dfy` | `Matrices` | dense matrices, products, transpose, diagonal matrices and their algebra |
| `linalg.dfy` | `Linalg` | `_is_symmetric`, `logm`, `solve_sylvester`, `_is_single_matrix_pd`, `is_pd` |

The code works by in-place updates in three places, and there the model is imperative:

- `exp` fills two zero-initialised coefficient arrays by masked assignment. `HypersphereMetric.ExpCoefficients` does this with `forall` statements on arrays, and `HypersphereMetric.Exp` combines the rows.
- `log` accumulates into its coefficient arrays, shifts the angle, and finally subtracts masked rows in place. `HypersphereMetric.LogCoefficients` and `HypersphereMetric.Log` do this.
- `christoffels` appends to a list in a loop. `HypersphereMetric.Christoffels` uses a `while` loop.

Each of these methods is proved against a per-row specification function (`ExpAt`, `LogAt`, `ChristoffelAt`). The geometric properties are lemmas about those functions. Everything else in the source is expressions, and is modelled by functions.

## Model

| member | source | states |
|---|---|---|
| Hypersphere.Belongs | geomstats/geometry/hypersphere.py:49-74 | rows of the wrong width give the single verdict `[False]`; the warning is flagged exactly when the width equals the intrinsic dimension; otherwise one verdict per row, true iff the squared norm is within `tolerance` of 1 |
| Hypersphere.IdentityCheckMissesLargeDimension | geomstats/geometry/hypersphere.py:67-70 | with dimension 257 and rows of width 257, the identity test as written (`WarnsAsWritten`) stays silent while the intended test warns |
| Hypersphere.Projection | geomstats/geometry/hypersphere.py:94-103 | keeps the number and width of the rows; under lawful transcendentals each non-zero row becomes a unit vector whose inner product with the original row is that row's norm, i.e. the row's own direction at length 1 |
| Hypersphere.ProjectionBelongs | geomstats/geometry/hypersphere.py:94-103 | the projection of non-zero rows of width `dimension + 1` passes `belongs` at every non-negative tolerance |
| Hypersphere.Regularize | geomstats/geometry/hypersphere.py:76-92 | succeeds iff the width is `dimension + 1` and every row belongs at the default tolerance 1e-6, otherwise raises `AssertionError`; on success the result is the projection |
| Hypersphere.RegularizeOnSphere | geomstats/geometry/hypersphere.py:76-103 | every row of a regularized batch has squared norm exactly 1 |
| Hypersphere.TangentAtOrthogonal | geomstats/geometry/hypersphere.py:122-125 | `v - (<p, v> / <p, p>) p` is orthogonal to every non-zero `p` |
| Hypersphere.TangentAtFixesTangent | geomstats/geometry/hypersphere.py:122-125 | a vector already orthogonal to the base point is returned unchanged |
| Hypersphere.TangentAtIdempotent | geomstats/geometry/hypersphere.py:122-125 | projecting onto the tangent space twice is projecting once |
| Hypersphere.ProjectionToTangentSpace | geomstats/geometry/hypersphere.py:105-127 | one row per broadcast pair, of the vectors' width; row `i` is `TangentAt` of pair `i` (so `TangentAtIdempotent` applies), orthogonal to its non-zero base point, and a vector already orthogonal to its base point is returned unchanged |
| Hypersphere.IntrinsicToExtrinsicCoords | geomstats/geometry/hypersphere.py:197-219 | one row per input row, one column wider |
| Hypersphere.ExtrinsicToIntrinsicCoords | geomstats/geometry/hypersphere.py:221-238 | one row per input row |
| Hypersphere.IntrinsicRoundTrip | geomstats/geometry/hypersphere.py:214-217 | dropping the first column undoes the prepended one: `extrinsic_to_intrinsic(intrinsic_to_extrinsic(x)) == x` for every batch |
| Hypersphere.IntrinsicToExtrinsicOnSphere | geomstats/geometry/hypersphere.py:214-217 | rows inside the closed unit ball are lifted onto the unit sphere |
| Hypersphere.ExtrinsicRoundTrip | geomstats/geometry/hypersphere.py:214-236 | on the closed upper hemisphere (first coordinate >= 0) converting to intrinsic and back restores the point |
| HypersphereMetric.CosTaylorMatchesTable | geomstats/geometry/hypersphere.py:18-22 | the small-norm branch of `exp` evaluates the first seven entries of `COS_TAYLOR_COEFFS` |
| HypersphereMetric.SquaredNorms | geomstats/geometry/hypersphere.py:322-340 | one squared norm per row, non-negative, and zero exactly on the rows that are the zero vector |
| HypersphereMetric.InnerProduct | geomstats/geometry/hypersphere.py:299-320 | one entry per broadcast pair of rows; the entry for two unit rows lies in [-1, 1] |
| HypersphereMetric.InnerProductSymmetric | geomstats/geometry/hypersphere.py:299-320 | the inner product of two batches is symmetric, row by row |
| HypersphereMetric.SquaredNormsAreInnerProducts | geomstats/geometry/hypersphere.py:299-340 | the squared norm is the inner product of a batch with itself (both are the row-wise dot product, so this records the relation the two methods share rather than a separate fact) |
| HypersphereMetric.ExpCoefficients | geomstats/geometry/hypersphere.py:379-392 | starting from zeros, the two masked assignments of each coefficient array leave every entry at its intended value: the `cos` and `sin t / t` Taylor polynomials where the norm is close to 0, `cos(norm)` and `sin(norm) / norm` elsewhere |
| HypersphereMetric.Exp | geomstats/geometry/hypersphere.py:342-396 | raises `AssertionError` iff the base points have fewer than 2 coordinates (the sphere of dimension `extrinsic_dim - 1` built at line 368 asserts a positive dimension); otherwise `max(n_base_points, n_tangent_vecs)` rows; row `i` is `ExpAt` of the broadcast pair `i`: `c1 b + c2 p` for the tangent projection `p` of the vector, with the coefficients of `ExpCoefficients` at the norm of `p` |
| HypersphereMetric.ExpOfZero | geomstats/geometry/hypersphere.py:379-394 | the exponential of the zero vector is the base point (both Taylor coefficients equal 1 at norm 0) |
| HypersphereMetric.ExpOnSphere | geomstats/geometry/hypersphere.py:369-394 | off the Taylor branch, the exponential at a unit base point lies on the unit sphere |
| HypersphereMetric.ExpNormRowsMismatch | geomstats/geometry/hypersphere.py:364-379 | the tiled norm column (`ExpNormRowsAsWritten`) has `n_exps` rows exactly when `n_base_points <= n_tangent_vecs` |
| HypersphereMetric.LogCoefficients | geomstats/geometry/hypersphere.py:427-451 | the masked accumulation, with the angle shifted by 1 on Taylor rows, yields for every row exactly `angle / sin(angle)` and `angle / tan(angle)` off the Taylor branch and the two `INV_*_TAYLOR_COEFFS` polynomials on it |
| HypersphereMetric.LogCoefficientEntry | geomstats/geometry/hypersphere.py:436-451 | one row of that accumulation gives the intended pair of coefficients, whichever mask holds |
| HypersphereMetric.Log | geomstats/geometry/hypersphere.py:398-471 | one row per broadcast pair; row `i` is `LogAt` of pair `i`: the zero vector when the two points are close coordinate by coordinate, `c1 p - c2 b` with the coefficients of `LogCoefficients` otherwise |
| HypersphereMetric.NotCloseCountZero | geomstats/geometry/hypersphere.py:456-463 | the count of coordinates that are not close is zero iff every coordinate is close |
| HypersphereMetric.MaskedSelfSubtraction | geomstats/geometry/hypersphere.py:469 | `log -= mask * log` zeroes a row exactly when its mask is set and leaves it unchanged otherwise |
| HypersphereMetric.LogOfItself | geomstats/geometry/hypersphere.py:456-469 | the logarithm of every point at itself is the zero vector |
| HypersphereMetric.CosAngleOfUnits | geomstats/geometry/hypersphere.py:417-421 | for unit vectors the clipped cosine equals their inner product |
| HypersphereMetric.LogAtRegular | geomstats/geometry/hypersphere.py:417-454 | on a regular pair of unit points the angle is `arccos <b, p>`, its sine is non-zero, and the logarithm is `c1 p - c1 <b, p> b` with `c1 sin(angle) = angle` |
| HypersphereMetric.LogIsTangentOfLengthAngle | geomstats/geometry/hypersphere.py:398-498 | on a regular pair the logarithm is tangent at the base point, and its norm is the angle between the points, which is their distance |
| HypersphereMetric.ExpOfLog | geomstats/geometry/hypersphere.py:342-471 | on a regular pair, the exponential of the logarithm is the point again |
| HypersphereMetric.Dist | geomstats/geometry/hypersphere.py:473-498 | one distance per broadcast pair, non-negative under lawful transcendentals |
| HypersphereMetric.DistSymmetric | geomstats/geometry/hypersphere.py:489-496 | the distance is symmetric, row by row |
| HypersphereMetric.DistToItself | geomstats/geometry/hypersphere.py:489-496 | every non-zero point is at distance 0 from itself |
| HypersphereMetric.ParallelTransport | geomstats/geometry/hypersphere.py:500-528 | raises `AssertionError` iff the three batches differ in row count; otherwise row `i` is the transport of row `i` |
| HypersphereMetric.TransportAt | geomstats/geometry/hypersphere.py:521-527 | the transported vector has the width of `a`; a vector orthogonal to a non-zero velocity `b` is carried along unchanged |
| HypersphereMetric.TransportPreservesNorm | geomstats/geometry/hypersphere.py:521-527 | at a unit base point, with both vectors tangent and `b != 0`, the transported vector keeps the squared norm of `a` |
| HypersphereMetric.TransportIsTangentAtEndPoint | geomstats/geometry/hypersphere.py:521-527 | under lawful transcendentals, at a unit base point, with `a` and `b` of the base point's width and both tangent to it, and `b` off the Taylor branch of `exp` (its norm not close to 0), the transported vector is orthogonal to `exp_base(b)`, the end point of the geodesic |
| HypersphereMetric.Christoffels | geomstats/geometry/hypersphere.py:530-562 | `NotImplementedError` unless dimension 2 and spherical coordinates; `ValueError` on an empty batch; otherwise one symbol array per row, computed from its first coordinate and symmetric in the lower indices |
| HypersphereMetric.ChristoffelsAreLeviCivita | geomstats/geometry/hypersphere.py:556-559 | where `sin` is non-zero, every entry equals the Levi-Civita formula for the round metric `diag(1, sin^2)` |
| Linalg.IsSymmetric | geomstats/_backend/numpy/linalg.py:20-22 | true iff `abs(x[k][i][j] - x[k][j][i]) < tol` for every matrix and index pair; a single matrix is checked as a stack of one |
| Linalg.ExactlySymmetricPasses | geomstats/_backend/numpy/linalg.py:20-22 | a stack of exactly symmetric matrices passes the test at every positive tolerance |
| Linalg.Logm | geomstats/_backend/numpy/linalg.py:29-47 | keeps the rank (a matrix for a matrix, a stack of as many for a stack); on the eigen path, taken iff the stack is symmetric within 1e-12 and all eigenvalues are positive, each matrix is `V diag(log lambda) V^T`; otherwise each matrix is the general logarithm |
| Linalg.LogmEigenPathSymmetric | geomstats/_backend/numpy/linalg.py:32-39 | on the eigen path every result matrix is symmetric, so the result passes the symmetry test |
| Linalg.SolveSylvester | geomstats/_backend/numpy/linalg.py:50-62 | when shapes are equal, entries equal, `a` is symmetric within 1e-12 and every eigenvalue is >= 1e-12, each matrix is `V X V^T` with `X = (V^T q V) / (lambda_i + lambda_j)`; otherwise the general solver's answer on the unchanged arguments |
| Linalg.SylvesterDenominatorsPositive | geomstats/_backend/numpy/linalg.py:53-57 | under the shortcut every denominator `lambda_i + lambda_j` is at least 2e-12 |
| Linalg.SpectralFormulaSolves | geomstats/_backend/numpy/linalg.py:54-58 | when `eigh` diagonalises `a` by an orthogonal `V` and no two eigenvalues sum to 0, the formula solves `a x + x a = q` |
| Linalg.SolveSylvesterSolves | geomstats/_backend/numpy/linalg.py:50-58 | when the shortcut applies and `eigh` diagonalises each matrix, the returned `x` solves `a x + x b = q`, matrix by matrix |
| Linalg.IsSingleMatrixPd | geomstats/_backend/numpy/linalg.py:75-86 | `True` iff Cholesky succeeds; `False` iff it fails with exactly "Matrix is not positive definite"; any other message is re-raised as that `LinAlgError` |
| Linalg.IsSingleMatrixPdEach | geomstats/_backend/numpy/linalg.py:98 | succeeds iff every matrix's test succeeds, with entry `k` the verdict on matrix `k`; an error is that of a matrix all of whose predecessors succeeded |
| Linalg.IsPd | geomstats/_backend/numpy/linalg.py:89-100 | non-square matrix: `False`; non-square stack: `[False] * n`; square matrix: the single test; square stack: the list of single tests; any other rank: `None` |
| Linalg.IsPdStackOfOne | geomstats/_backend/numpy/linalg.py:93-98 | a matrix and the stack holding only it get the same verdict, or the same error |
| Linalg.AcceptedDiagonalNonnegative | geomstats/_backend/numpy/linalg.py:75-86 | when Cholesky's factor `L` reproduces the lower triangle of the matrix (all NumPy reads), a matrix the test accepts has a non-negative diagonal |
| Linalg.AcceptedSymmetricIsGram | geomstats/_backend/numpy/linalg.py:75-86 | under the same lower-triangle hypothesis, a symmetric matrix the test accepts equals `L L^T` in full |
| Linalg.AcceptsNonSymmetric | geomstats/_backend/numpy/linalg.py:89-98 | as documented, symmetry is not checked: with a factorisation that reads only the lower triangle, the non-symmetric `[[1, 5], [0, 1]]` is reported positive definite by `is_pd` |

## Left out

- Floating-point rounding, overflow, and how well the Taylor polynomials approximate `cos`, `sin x / x`, `x / sin x` and `x / tan x`. The tables are kept verbatim, and only exact algebra over the reals is proved.
- IEEE infinities and NaN. Division by an exact zero yields 0 in the model (`Numerics.Quotient`). This covers a zero row in `projection`, a zero base point in `projection_to_tangent_space`, a zero `tangent_vec_b` in `parallel_transport`, `tan` at a right angle in `log`, and `sin = 0` in `christoffels`. It also covers a zero row in `log` and `dist`, where `cos_angle` is 0/0. The source gives NaN there, and `log -= mask * log` keeps that NaN. The model gives the zero vector, and `HypersphereMetric.LogOfItself` includes zero rows.
- The square root of a negative number in `intrinsic_to_extrinsic_coords` (rows outside the unit ball) is left unconstrained.
- `random_uniform` and `random_von_mises_fisher`: random sampling is not modelled.
- `spherical_to_extrinsic` and `tangent_spherical_to_extrinsic` are not modelled. They only fill arrays with trigonometric values.
- The `logging.warning` call in `belongs` is modelled as the flag `warned` of the result. `Hypersphere.Regularize` discards that flag: the warning that `regularize` logs through `belongs` on rows of width `dimension`, just before its assertion fails, is not modelled.
- The `EmbeddedManifold`, `EuclideanSpace` and `RiemannianMetric` classes are not part of this model. The Euclidean metric is the plain dot product.
- `base_point` is ignored by `inner_product` and `squared_norm`, so it is not a parameter of the model.
- NumPy broadcasting beyond the row-count rule is not modelled: `einsum` and `tile` on other shapes, and arrays of rank other than 2 in the geometry code.
- Batches with zero rows follow the comprehensions of the model in the members without a broadcasting precondition (`Belongs`, `Projection`, `Regularize`, the coordinate changes, `SquaredNorms`, `Christoffels`). NumPy's behaviour on empty arrays is not modelled, except for the `ValueError` of stacking an empty list in `christoffels`.
- Hypersphere.ProjectionToTangentSpace, HypersphereMetric.InnerProduct, HypersphereMetric.Exp, HypersphereMetric.Log, HypersphereMetric.Dist: require at least one row on each side (`Vectors.Conformable`), and so do the lemmas about them (`AllTangentsOrthogonal`, `InnerProductSymmetric`, `SquaredNormsAreInnerProducts`, `DistSymmetric`, `DistToItself`, `LogOfItself`). NumPy broadcasts an empty batch against a single row to an empty result; that case is not modelled.
- `expm`, `sqrtm`, `qr`, and SciPy's `logm` and `solve_sylvester` are oracles, not models. So are `eigh` and `cholesky`: whether they are correct is assumed where a lemma says so (`Linalg.Diagonalises`, `Linalg.FactorsLowerTriangle`), never proved.
- HypersphereMetric.Exp: models the intended one result row per broadcast pair. The `tile` of the norm column as written is captured separately by `ExpNormRowsAsWritten` (see Findings).
- HypersphereMetric.LogCoefficients: the local arrays `coef_1`, `coef_2` and `angle` are sequence values reassigned step by step, not NumPy arrays updated in place. Nothing else sees them, so nothing observable is lost.
- HypersphereMetric.Log: the masked products `mask.astype(float) * x` are modelled as "x where the mask is set, 0 elsewhere" (`Masked`). This agrees with the source for every finite `x`.
- HypersphereMetric.LogIsTangentOfLengthAngle, HypersphereMetric.ExpOfLog: proved only for a `RegularPair`, meaning unit points that are not coordinate-wise close, off the Taylor branch, neither antipodal nor at a right angle. On the Taylor branch the source's coefficients are approximations, so no exact identity holds there.
- HypersphereMetric.TransportPreservesNorm: requires `b != 0`. At `b = 0` the source divides by zero.
- HypersphereMetric.Christoffels: requires every row to have at least one coordinate. A zero-width row raises `IndexError` in the source, and that error is not modelled.
- HypersphereMetric.ParallelTransport: requires a non-empty base-point batch whose rows all have one width, and rows of `tangent_vec_a` and `tangent_vec_b` of that same width. With equal row counts and different widths, the source raises `ValueError` from `einsum` (hypersphere.py:523), which is not modelled. With unequal row counts the source raises `AssertionError` whatever the widths; the model covers that only when the widths agree.
- Linalg.IsSymmetric, Linalg.Logm: require square matrices. On other shapes NumPy's broadcasting error, or the oracle's, is not modelled.
- Linalg.SolveSylvester: requires `a` and `b` to be stacks of square matrices. A non-square `a` makes NumPy raise `ValueError`, either at the transpose comparison (linalg.py:53) or at the signature of `vectorize` (linalg.py:60-61), and that error is not modelled. When `a` and `b` have the same shape, `q` must have that shape too. Broadcasting of `q` against `a` is not modelled. The test of the eigenvalues uses 1e-12 as in the code.
- Linalg.IsPd: for a square stack whose test raises, the contract says only that it raises. Which error it is, is stated by `IsSingleMatrixPdEach`.
- `COS_TAYLOR_COEFFS` has ten entries, up to `x^9`. `exp` uses only the terms up to `x^6`, hardcoded in its body; `CosTaylorMatchesTable` proves that these agree with the table.

## Findings

| source | as written | input that shows it | evidently intended | confidence | as-written member | corrected member |
|---|---|---|---|---|---|---|
| geomstats/geometry/hypersphere.py:67 | `point_dim is self.dimension` compares object identity; CPython makes equal ints identical only in its small-int cache (-5..256) | `Hypersphere(257).belongs` on rows of width 257: no warning | `point_dim == self.dimension`: warn whenever the rows have the intrinsic width | not executed | Hypersphere.WarnsAsWritten, Hypersphere.IdentityCheckMissesLargeDimension | Hypersphere.Belongs |
| geomstats/geometry/hypersphere.py:371-379 | the norms of the projected tangent vectors already have one entry per result row, and are tiled again by `n_exps // n_tangent_vecs` | one tangent vector and two base points: the norm column is tiled to 4 rows (or 2x2), the masks no longer match the 2-row coefficient arrays, and the masked assignment fails | one norm per result row, with no tiling | not executed | HypersphereMetric.ExpNormRowsAsWritten, HypersphereMetric.ExpNormRowsMismatch | HypersphereMetric.Exp |
