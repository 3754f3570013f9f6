/** The Riemannian metric of the hypersphere (class `HypersphereMetric` of
    geomstats/geometry/hypersphere.py): the ambient inner product, the
    exponential and logarithm maps, the geodesic distance, parallel transport
    and the Christoffel symbols of the 2-sphere.

    Batches broadcast as in `Vectors`: an operand with a single row is
    repeated against the rows of the other. */
module HypersphereMetric {
  import opened Numerics
  import opened Vectors
  import opened Exceptions
  import opened Hypersphere

  // ---------------------------------------------------------------------------
  // Taylor coefficient tables of the module

  function Factorial(n: nat): (r: nat)
    ensures 1 <= r
  {
    if n == 0 then 1 else n * Factorial(n - 1)
  }

  /** Coefficients of `cos x` in powers of x, up to x^9. */
  const COS_TAYLOR_COEFFS: seq<real> := [
    1.0, 0.0,
    -1.0 / (Factorial(2) as real), 0.0,
    1.0 / (Factorial(4) as real), 0.0,
    -1.0 / (Factorial(6) as real), 0.0,
    1.0 / (Factorial(8) as real), 0.0]

  /** Entry k is the coefficient of x^(k+1) in `x / sin x`. */
  const INV_SIN_TAYLOR_COEFFS: seq<real> := [
    0.0, 1.0 / 6.0,
    0.0, 7.0 / 360.0,
    0.0, 31.0 / 15120.0,
    0.0, 127.0 / 604800.0]

  /** Entry k is the coefficient of x^(k+1) in `x / tan x`. */
  const INV_TAN_TAYLOR_COEFFS: seq<real> := [
    0.0, -1.0 / 3.0,
    0.0, -1.0 / 45.0,
    0.0, -2.0 / 945.0,
    0.0, -1.0 / 4725.0]

  /** `sum(coeffs[k] * x ** k)`, evaluated by Horner's rule. */
  function Polynomial(coeffs: seq<real>, x: real): real
    decreases |coeffs|
  {
    if |coeffs| == 0 then 0.0 else coeffs[0] + x * Polynomial(coeffs[1..], x)
  }

  // ---------------------------------------------------------------------------
  // Inner product and squared norm

  /** `inner_product`: the ambient dot product of each pair of rows. On a
      pair of unit rows it lies in [-1, 1], the cosine of their angle. */
  function InnerProduct(a: Batch, b: Batch): (r: seq<real>)
    requires Conformable(a, b)
    ensures |r| == Max(|a|, |b|)
    ensures forall i :: 0 <= i < |r| && SquaredNorm(RowAt(a, i)) == 1.0 && SquaredNorm(RowAt(b, i)) == 1.0 ==>
              -1.0 <= r[i] <= 1.0
  {
    UnitRowsBounded(a, b);
    seq(Max(|a|, |b|), i requires 0 <= i < Max(|a|, |b|) => Dot(RowAt(a, i), RowAt(b, i)))
  }

  lemma {:induction false} UnitRowsBounded(a: Batch, b: Batch)
    requires Conformable(a, b)
    ensures forall i :: 0 <= i < Max(|a|, |b|) && SquaredNorm(RowAt(a, i)) == 1.0 && SquaredNorm(RowAt(b, i)) == 1.0 ==>
              -1.0 <= Dot(RowAt(a, i), RowAt(b, i)) <= 1.0
  {
    forall i | 0 <= i < Max(|a|, |b|) && SquaredNorm(RowAt(a, i)) == 1.0 && SquaredNorm(RowAt(b, i)) == 1.0
      ensures -1.0 <= Dot(RowAt(a, i), RowAt(b, i)) <= 1.0
    {
      ConformableRows(a, b, i);
      UnitDotBounds(RowAt(a, i), RowAt(b, i));
    }
  }

  /** `squared_norm`: the ambient squared norm of each row. It is non-negative,
      and zero exactly on the zero rows. */
  function SquaredNorms(vector: Batch): (r: seq<real>)
    ensures |r| == |vector|
    ensures forall i :: 0 <= i < |r| ==> 0.0 <= r[i]
    ensures forall i :: 0 <= i < |r| ==> (r[i] == 0.0 <==> vector[i] == Zeros(|vector[i]|))
  {
    SquaredNormsDefinite(vector);
    seq(|vector|, i requires 0 <= i < |vector| => SquaredNorm(vector[i]))
  }

  lemma {:induction false} SquaredNormsDefinite(vector: Batch)
    ensures forall i :: 0 <= i < |vector| ==> 0.0 <= SquaredNorm(vector[i])
    ensures forall i :: 0 <= i < |vector| ==> (SquaredNorm(vector[i]) == 0.0 <==> vector[i] == Zeros(|vector[i]|))
  {
    forall i | 0 <= i < |vector|
      ensures 0.0 <= SquaredNorm(vector[i])
      ensures SquaredNorm(vector[i]) == 0.0 <==> vector[i] == Zeros(|vector[i]|)
    {
      SquaredNormNonnegative(vector[i]);
      SquaredNormZeroIff(vector[i]);
    }
  }

  /** The inner product is symmetric, row by row. */
  lemma {:induction false} InnerProductSymmetric(a: Batch, b: Batch)
    requires Conformable(a, b)
    ensures Conformable(b, a)
    ensures InnerProduct(a, b) == InnerProduct(b, a)
  {
    forall i | 0 <= i < Max(|a|, |b|)
      ensures InnerProduct(a, b)[i] == InnerProduct(b, a)[i]
    {
      ConformableRows(a, b, i);
      DotSymmetric(RowAt(a, i), RowAt(b, i));
    }
  }

  /** The squared norm is the inner product of a batch with itself. */
  lemma {:induction false} SquaredNormsAreInnerProducts(vector: Batch)
    requires Conformable(vector, vector)
    ensures SquaredNorms(vector) == InnerProduct(vector, vector)
  {
  }

  // ---------------------------------------------------------------------------
  // Exponential map

  /** `1 - t^2/2 + t^4/24 - t^6/720`, the small-angle value of `cos t`. */
  function CosTaylor(theta: real): real {
    var norm2 := theta * theta;
    var norm4 := norm2 * norm2;
    var norm6 := norm2 * norm2 * norm2;
    1.0 - norm2 / 2.0 + norm4 / 24.0 - norm6 / 720.0
  }

  /** `1 - t^2/6 + t^4/120 - t^6/5040`, the small-angle value of `sin t / t`. */
  function SincTaylor(theta: real): real {
    var norm2 := theta * theta;
    var norm4 := norm2 * norm2;
    var norm6 := norm2 * norm2 * norm2;
    1.0 - norm2 / 6.0 + norm4 / 120.0 - norm6 / 5040.0
  }

  /** Coefficient of the base point in `exp`. */
  function ExpCosCoefficient(t: Transcendentals, theta: real): real {
    if IsClose(theta, 0.0) then CosTaylor(theta) else Cos(t, theta)
  }

  /** Coefficient of the tangent vector in `exp`. */
  function ExpSinCoefficient(t: Transcendentals, theta: real): real {
    if IsClose(theta, 0.0) then SincTaylor(theta) else Quotient(Sin(t, theta), theta)
  }

  /** The exponential of one tangent vector `v` at one base point `b`:
      `cos(|p|) b + (sin(|p|) / |p|) p` for the tangent projection `p` of `v`. */
  function ExpAt(t: Transcendentals, v: Vector, b: Vector): (r: Vector)
    requires |v| == |b|
    ensures |r| == |b|
  {
    var p := TangentAt(v, b);
    var theta := Norm(t, p);
    Add(Scale(ExpCosCoefficient(t, theta), b), Scale(ExpSinCoefficient(t, theta), p))
  }

  /** The two coefficient arrays of `exp`: they start at zero and are filled
      by masked assignment, the Taylor branch where the norm is close to
      zero, `cos` and `sin / norm` elsewhere. */
  method ExpCoefficients(t: Transcendentals, norm: seq<real>) returns (c1: seq<real>, c2: seq<real>)
    ensures |c1| == |c2| == |norm|
    ensures forall i :: 0 <= i < |norm| ==>
              c1[i] == ExpCosCoefficient(t, norm[i]) && c2[i] == ExpSinCoefficient(t, norm[i])
  {
    var n := |norm|;
    var coef1 := new real[n](_ => 0.0);
    var coef2 := new real[n](_ => 0.0);
    forall i | 0 <= i < n && IsClose(norm[i], 0.0) {
      coef1[i] := CosTaylor(norm[i]);
    }
    forall i | 0 <= i < n && IsClose(norm[i], 0.0) {
      coef2[i] := SincTaylor(norm[i]);
    }
    forall i | 0 <= i < n && !IsClose(norm[i], 0.0) {
      coef1[i] := Cos(t, norm[i]);
    }
    forall i | 0 <= i < n && !IsClose(norm[i], 0.0) {
      coef2[i] := Quotient(Sin(t, norm[i]), norm[i]);
    }
    c1, c2 := coef1[..], coef2[..];
  }

  /** `exp`: one result row per pair of rows after broadcasting, combining the
      base point and the projected tangent vector with the coefficients of
      `ExpCoefficients`. The sphere of dimension `extrinsic_dim - 1` that
      `exp` builds asserts a positive dimension, so base points of width 0 or
      1 raise `AssertionError`. */
  method Exp(t: Transcendentals, tangentVec: Batch, basePoint: Batch) returns (exp: Result<Batch>)
    requires Conformable(tangentVec, basePoint)
    ensures exp.Raised? <==> |basePoint[0]| < 2
    ensures exp.Raised? ==> exp.error == AssertionError
    ensures exp.Ok? ==> |exp.value| == Max(|basePoint|, |tangentVec|)
    ensures exp.Ok? ==> forall i :: 0 <= i < |exp.value| ==>
              exp.value[i] == ExpAt(t, RowAt(tangentVec, i), RowAt(basePoint, i))
  {
    var extrinsicDim := |basePoint[0]|;
    if !(extrinsicDim - 1 > 0) {
      return Raised(AssertionError);
    }
    var nExps := Max(|basePoint|, |tangentVec|);
    var projTangentVec := ProjectionToTangentSpace(tangentVec, basePoint);
    var normTangentVec := new real[nExps];
    forall i | 0 <= i < nExps {
      normTangentVec[i] := Norm(t, projTangentVec[i]);
    }
    var c1, c2 := ExpCoefficients(t, normTangentVec[..]);
    var rows := seq(nExps, i requires 0 <= i < nExps =>
                      Add(Scale(c1[i], RowAt(basePoint, i)), Scale(c2[i], projTangentVec[i])));
    forall i | 0 <= i < nExps
      ensures rows[i] == ExpAt(t, RowAt(tangentVec, i), RowAt(basePoint, i))
    {
      assert projTangentVec[i] == TangentAt(RowAt(tangentVec, i), RowAt(basePoint, i));
    }
    exp := Ok(rows);
  }

  /** The base point is its own exponential at the zero vector. */
  lemma {:induction false} ExpOfZero(t: Transcendentals, b: Vector)
    requires Lawful(t)
    ensures ExpAt(t, Zeros(|b|), b) == b
  {
    var z := Zeros(|b|);
    DotZerosLeft(b);
    DotSymmetric(z, b);
    TangentAtFixesTangent(z, b);
    assert SquaredNorm(z) == 0.0 by {
      DotZerosLeft(z);
    }
    SqrtZero(t);
    assert Norm(t, z) == 0.0;
    assert ExpCosCoefficient(t, 0.0) == 1.0;
    ScaleOne(b);
    forall j | 0 <= j < |b|
      ensures ExpAt(t, z, b)[j] == b[j]
    {
    }
  }

  /** Away from the Taylor branch, the exponential at a unit base point lands
      on the unit sphere: `cos^2 + sin^2 = 1`, and the projected tangent vector
      is orthogonal to the base point. */
  lemma {:induction false} ExpOnSphere(t: Transcendentals, v: Vector, b: Vector)
    requires Lawful(t)
    requires |v| == |b| && SquaredNorm(b) == 1.0
    requires !IsClose(Norm(t, TangentAt(v, b)), 0.0)
    ensures SquaredNorm(ExpAt(t, v, b)) == 1.0
  {
    var p := TangentAt(v, b);
    var theta := Norm(t, p);
    var sn := Sin(t, theta);
    var c := Cos(t, theta);
    var k := Quotient(sn, theta);
    ExpAtClosedForm(t, v, b, p, theta, c, k);
    assert Dot(b, p) == 0.0 by {
      TangentAtOrthogonal(v, b);
      DotSymmetric(p, b);
    }
    assert SquaredNorm(p) == theta * theta && theta != 0.0 by {
      NormSquared(t, p);
    }
    assert sn * sn + c * c == 1.0;
    UnitCombinationNorm(c, k, theta, sn, b, p);
  }

  /** `|c b + k p| = 1` for unit `b`, `p` orthogonal to `b` with `|p| = theta`,
      and `k theta = s` where `s^2 + c^2 = 1`. */
  lemma {:induction false} UnitCombinationNorm(c: real, k: real, theta: real, s: real, b: Vector, p: Vector)
    requires |b| == |p| && SquaredNorm(b) == 1.0 && Dot(b, p) == 0.0
    requires theta != 0.0 && SquaredNorm(p) == theta * theta
    requires k == Quotient(s, theta) && s * s + c * c == 1.0
    ensures SquaredNorm(Add(Scale(c, b), Scale(k, p))) == 1.0
  {
    SquaredNormCombination(c, b, k, p);
    UnitCombination(c, k, theta, s, Dot(b, p), SquaredNorm(p));
  }

  /** Off the Taylor branch, the exponential is `cos(theta) b + (sin(theta) / theta) p`. */
  lemma {:induction false} ExpAtClosedForm(t: Transcendentals, v: Vector, b: Vector,
                                           p: Vector, theta: real, c: real, k: real)
    requires |v| == |b|
    requires p == TangentAt(v, b) && theta == Norm(t, p) && !IsClose(theta, 0.0)
    requires c == Cos(t, theta) && k == Quotient(Sin(t, theta), theta)
    ensures ExpAt(t, v, b) == Add(Scale(c, b), Scale(k, p))
  {
  }

  /** `|c b + k p|^2 = 1` from its expansion, for unit `b`, `p` orthogonal to
      `b` with `|p| = theta`, and `k theta = s` where `s^2 + c^2 = 1`. */
  lemma UnitCombination(c: real, k: real, theta: real, s: real, d: real, np: real)
    requires theta != 0.0 && k == Quotient(s, theta)
    requires np == theta * theta && d == 0.0
    requires s * s + c * c == 1.0
    ensures c * c * 1.0 + 2.0 * (c * k * d) + k * k * np == 1.0
  {
    SquareOfProduct(k, theta, s);
  }

  lemma SquareOfProduct(k: real, x: real, s: real)
    requires k * x == s
    ensures k * k * (x * x) == s * s
  {
    assert k * k * (x * x) == (k * x) * (k * x);
  }

  /** The Taylor branch of `exp` uses the first terms of the module's cosine table. */
  lemma {:induction false} CosTaylorMatchesTable(theta: real)
    ensures CosTaylor(theta) == Polynomial(COS_TAYLOR_COEFFS[..7], theta)
  {
    var c := COS_TAYLOR_COEFFS[..7];
    assert c == [1.0, 0.0, -1.0 / 2.0, 0.0, 1.0 / 24.0, 0.0, -1.0 / 720.0];
    assert c[6..][1..] == [];
    assert c[1..] == [0.0, -1.0 / 2.0, 0.0, 1.0 / 24.0, 0.0, -1.0 / 720.0];
    var x := theta;
    var p6 := Polynomial([-1.0 / 720.0], x);
    assert p6 == -1.0 / 720.0;
    var p4 := Polynomial([1.0 / 24.0, 0.0, -1.0 / 720.0], x);
    assert p4 == 1.0 / 24.0 + x * (0.0 + x * p6);
    var p2 := Polynomial([-1.0 / 2.0, 0.0, 1.0 / 24.0, 0.0, -1.0 / 720.0], x);
    assert p2 == -1.0 / 2.0 + x * (0.0 + x * p4);
    assert Polynomial(c, x) == 1.0 + x * (0.0 + x * p2);
  }

  /** Rows of the tangent norms inside `exp` as written: the norms of the
      projected vectors, already one per result row, are tiled once more by
      `n_exps // n_tangent_vecs` before they index the coefficient arrays,
      which have `n_exps` rows. */
  function ExpNormRowsAsWritten(nBasePoints: nat, nTangentVecs: nat): nat
    requires Broadcastable(nBasePoints, nTangentVecs)
  {
    var nExps := Max(nBasePoints, nTangentVecs);
    nExps * (nExps / nTangentVecs)
  }

  /** The tiled norms fit the coefficient arrays exactly when the tangent
      vectors already supply every row: one tangent vector against several
      base points makes the boolean mask too long and the masked assignment
      fails. */
  lemma {:induction false} ExpNormRowsMismatch(nBasePoints: nat, nTangentVecs: nat)
    requires Broadcastable(nBasePoints, nTangentVecs)
    ensures (ExpNormRowsAsWritten(nBasePoints, nTangentVecs) == Max(nBasePoints, nTangentVecs))
              <==> (nBasePoints <= nTangentVecs)
  {
    var nExps := Max(nBasePoints, nTangentVecs);
    if nBasePoints <= nTangentVecs {
      assert nExps / nTangentVecs == 1;
    } else {
      assert nTangentVecs == 1 && 2 <= nExps;
      assert nExps * nExps >= 2 * nExps;
    }
  }

  // ---------------------------------------------------------------------------
  // Angle, logarithm and distance

  function NormProduct(t: Transcendentals, u: Vector, v: Vector): real {
    Norm(t, u) * Norm(t, v)
  }

  /** `clip(<u, v> / (|u| |v|), -1, 1)`. */
  function CosAngle(t: Transcendentals, u: Vector, v: Vector): (r: real)
    requires |u| == |v|
    ensures -1.0 <= r <= 1.0
  {
    Clip(Quotient(Dot(u, v), NormProduct(t, u, v)), -1.0, 1.0)
  }

  /** `arccos` of the clipped cosine: the angle between `u` and `v`. */
  function Angle(t: Transcendentals, u: Vector, v: Vector): real
    requires |u| == |v|
  {
    Arccos(t, CosAngle(t, u, v))
  }

  /** `1 + sum(INV_SIN_TAYLOR_COEFFS[k] * a ** (k + 1))` over the odd k. */
  function InvSinTaylor(angle: real): real {
    var a2 := angle * angle;
    var a4 := a2 * a2;
    var a6 := a4 * a2;
    var a8 := a4 * a4;
    1.0 + INV_SIN_TAYLOR_COEFFS[1] * a2 + INV_SIN_TAYLOR_COEFFS[3] * a4
        + INV_SIN_TAYLOR_COEFFS[5] * a6 + INV_SIN_TAYLOR_COEFFS[7] * a8
  }

  /** `1 + sum(INV_TAN_TAYLOR_COEFFS[k] * a ** (k + 1))` over the odd k. */
  function InvTanTaylor(angle: real): real {
    var a2 := angle * angle;
    var a4 := a2 * a2;
    var a6 := a4 * a2;
    var a8 := a4 * a4;
    1.0 + INV_TAN_TAYLOR_COEFFS[1] * a2 + INV_TAN_TAYLOR_COEFFS[3] * a4
        + INV_TAN_TAYLOR_COEFFS[5] * a6 + INV_TAN_TAYLOR_COEFFS[7] * a8
  }

  /** Coefficient of the point in `log`: `angle / sin(angle)`. */
  function LogPointCoefficient(t: Transcendentals, angle: real): real {
    if IsClose(angle, 0.0) then InvSinTaylor(angle) else Quotient(angle, Sin(t, angle))
  }

  /** Coefficient of the base point in `log`: `angle / tan(angle)`. */
  function LogBaseCoefficient(t: Transcendentals, angle: real): real {
    if IsClose(angle, 0.0) then InvTanTaylor(angle) else Quotient(angle, Tan(t, angle))
  }

  /** Every coordinate of `p` is close to the matching one of `b`. */
  predicate SamePoint(p: Vector, b: Vector)
    requires |p| == |b|
  {
    forall j :: 0 <= j < |p| ==> IsClose(p[j], b[j])
  }

  /** Number of coordinates where `p` and `b` are not close. */
  function NotCloseCount(p: Vector, b: Vector): nat
    requires |p| == |b|
    decreases |p|
  {
    if |p| == 0 then 0
    else (if IsClose(p[0], b[0]) then 0 else 1) + NotCloseCount(p[1..], b[1..])
  }

  /** No coordinate apart is the same as all coordinates close. */
  lemma {:induction false} NotCloseCountZero(p: Vector, b: Vector)
    requires |p| == |b|
    ensures NotCloseCount(p, b) == 0 <==> SamePoint(p, b)
    decreases |p|
  {
    if |p| != 0 {
      NotCloseCountZero(p[1..], b[1..]);
      if SamePoint(p, b) {
        assert SamePoint(p[1..], b[1..]) by {
          forall j | 0 <= j < |p| - 1
            ensures IsClose(p[1..][j], b[1..][j])
          {
            assert IsClose(p[j + 1], b[j + 1]);
          }
        }
      } else if IsClose(p[0], b[0]) {
        var j :| 0 <= j < |p| && !IsClose(p[j], b[j]);
        assert !IsClose(p[1..][j - 1], b[1..][j - 1]);
      }
    }
  }

  /** The logarithm of `p` at base point `b`: zero when the points coincide
      coordinate by coordinate, `(angle / sin) p - (angle / tan) b` otherwise. */
  function LogAt(t: Transcendentals, p: Vector, b: Vector): (r: Vector)
    requires |p| == |b|
    ensures |r| == |p|
  {
    if SamePoint(p, b) then Zeros(|p|)
    else
      var angle := Angle(t, b, p);
      Sub(Scale(LogPointCoefficient(t, angle), p), Scale(LogBaseCoefficient(t, angle), b))
  }

  /** `mask.astype(float) * x` for a finite `x`: the value where the mask is
      set, zero where it is clear. */
  function Masked(mask: bool, x: real): (r: real)
    ensures mask ==> r == x
    ensures !mask ==> r == 0.0
  {
    if mask then x else 0.0
  }

  /** `gs.cast(mask, float)`. */
  function Cast(mask: bool): (r: real)
    ensures r == 0.0 || r == 1.0
    ensures r == 1.0 <==> mask
  {
    if mask then 1.0 else 0.0
  }

  /** `row - m * row` for a 0/1 mask `m`. */
  lemma MaskedSelfSubtraction(m: bool, row: Vector)
    ensures Sub(row, Scale(Cast(m), row)) == if m then Zeros(|row|) else row
  {
  }

  /** The coefficient computation of `log` on the angles, one per row: two
      coefficient vectors start at zero and are accumulated into under the
      Taylor mask and its complement, with the angle shifted by one on the
      Taylor rows in between (the shift keeps `sin` and `tan` away from zero
      where their quotient is then masked out). */
  method LogCoefficients(t: Transcendentals, angle0: seq<real>) returns (coef1: seq<real>, coef2: seq<real>)
    ensures |coef1| == |coef2| == |angle0|
    ensures forall i :: 0 <= i < |angle0| ==> coef1[i] == LogPointCoefficient(t, angle0[i])
    ensures forall i :: 0 <= i < |angle0| ==> coef2[i] == LogBaseCoefficient(t, angle0[i])
  {
    var n := |angle0|;
    var angle := angle0;
    var mask0 := seq(n, i requires 0 <= i < n => IsClose(angle[i], 0.0));
    var maskElse := seq(n, i requires 0 <= i < n => mask0[i] == false);
    coef1 := seq(n, i => 0.0);
    coef2 := seq(n, i => 0.0);
    coef1 := seq(n, i requires 0 <= i < n => coef1[i] + Masked(mask0[i], InvSinTaylor(angle[i])));
    coef2 := seq(n, i requires 0 <= i < n => coef2[i] + Masked(mask0[i], InvTanTaylor(angle[i])));
    angle := seq(n, i requires 0 <= i < n => angle[i] + Masked(mask0[i], 1.0));
    coef1 := seq(n, i requires 0 <= i < n => coef1[i] + Quotient(Masked(maskElse[i], angle[i]), Sin(t, angle[i])));
    coef2 := seq(n, i requires 0 <= i < n => coef2[i] + Quotient(Masked(maskElse[i], angle[i]), Tan(t, angle[i])));
    forall i | 0 <= i < n
      ensures coef1[i] == LogPointCoefficient(t, angle0[i])
      ensures coef2[i] == LogBaseCoefficient(t, angle0[i])
    {
      LogCoefficientEntry(t, angle0[i], mask0[i], angle[i], coef1[i], coef2[i]);
    }
  }

  /** One row of the masked accumulation in `LogCoefficients` yields the two
      coefficients of the original angle. */
  lemma LogCoefficientEntry(t: Transcendentals, a0: real, m: bool, a1: real, x1: real, x2: real)
    requires m == IsClose(a0, 0.0) && a1 == a0 + Masked(m, 1.0)
    requires x1 == 0.0 + Masked(m, InvSinTaylor(a0)) + Quotient(Masked(m == false, a1), Sin(t, a1))
    requires x2 == 0.0 + Masked(m, InvTanTaylor(a0)) + Quotient(Masked(m == false, a1), Tan(t, a1))
    ensures x1 == LogPointCoefficient(t, a0)
    ensures x2 == LogBaseCoefficient(t, a0)
  {
  }

  /** `log`: coefficient arrays start at zero and are accumulated into under
      the two complementary masks; the angle is shifted by one on the Taylor
      rows before the closed forms are added; rows whose points coincide are
      finally subtracted from themselves. */
  method Log(t: Transcendentals, point: Batch, basePoint: Batch) returns (log: Batch)
    requires Conformable(point, basePoint)
    ensures |log| == Max(|point|, |basePoint|)
    ensures forall i :: 0 <= i < |log| ==> log[i] == LogAt(t, RowAt(point, i), RowAt(basePoint, i))
  {
    var n := Max(|point|, |basePoint|);
    forall i | 0 <= i < n
      ensures |RowAt(point, i)| == |RowAt(basePoint, i)|
    {
      ConformableRows(point, basePoint, i);
    }
    var angle := seq(n, i requires 0 <= i < n => Angle(t, RowAt(basePoint, i), RowAt(point, i)));
    var coef1, coef2 := LogCoefficients(t, angle);
    var rows := new Vector[n];
    forall i | 0 <= i < n {
      rows[i] := Sub(Scale(coef1[i], RowAt(point, i)), Scale(coef2[i], RowAt(basePoint, i)));
    }
    var maskSame := seq(n, i requires 0 <= i < n =>
                          IsClose(NotCloseCount(RowAt(point, i), RowAt(basePoint, i)) as real, 0.0));
    ghost var rows0 := rows[..];
    forall i | 0 <= i < n {
      rows[i] := Sub(rows[i], Scale(Cast(maskSame[i]), rows[i]));
    }
    forall i | 0 <= i < n
      ensures rows[i] == LogAt(t, RowAt(point, i), RowAt(basePoint, i))
    {
      NotCloseCountZero(RowAt(point, i), RowAt(basePoint, i));
      MaskedSelfSubtraction(maskSame[i], rows0[i]);
    }
    log := rows[..];
  }

  /** `dist`: the angle between each pair of rows. */
  function Dist(t: Transcendentals, pointA: Batch, pointB: Batch): (r: seq<real>)
    requires Conformable(pointA, pointB)
    ensures |r| == Max(|pointA|, |pointB|)
    ensures Lawful(t) ==> forall i :: 0 <= i < |r| ==> 0.0 <= r[i]
  {
    seq(Max(|pointA|, |pointB|), i requires 0 <= i < Max(|pointA|, |pointB|) =>
          ConformableRows(pointA, pointB, i);
          Angle(t, RowAt(pointA, i), RowAt(pointB, i)))
  }

  // ---------------------------------------------------------------------------
  // Parallel transport

  /** The transport of `a` along the geodesic leaving `base` with velocity `b`:
      with `theta = |b|` and `nb = b / theta`, the component `pb` of `a` along
      `nb` is rotated in the plane of `base` and `nb` by the angle `theta`,
      and the orthogonal part `a - pb nb` is kept. A vector orthogonal to a
      non-zero velocity is therefore carried along unchanged. */
  function TransportAt(t: Transcendentals, a: Vector, b: Vector, base: Vector): (r: Vector)
    requires |a| == |b| == |base|
    ensures |r| == |a|
    ensures SquaredNorm(b) != 0.0 && Dot(a, b) == 0.0 ==> r == a
  {
    var theta := Norm(t, b);
    var nb := Scale(Quotient(1.0, theta), b);
    var pb := Dot(a, nb);
    var pOrth := Sub(a, Scale(pb, nb));
    OrthogonalKept(a, b, base, Quotient(1.0, theta), Cos(t, theta), Sin(t, theta));
    Rotated(Cos(t, theta), Sin(t, theta), pb, nb, base, pOrth)
  }

  /** With no component along the velocity, the rotation has nothing to turn
      and the kept part is the whole vector. */
  lemma {:induction false} OrthogonalKept(a: Vector, b: Vector, base: Vector, q: real, c: real, s: real)
    requires |a| == |b| == |base|
    ensures Dot(a, b) == 0.0 ==>
              Rotated(c, s, Dot(a, Scale(q, b)), Scale(q, b), base,
                      Sub(a, Scale(Dot(a, Scale(q, b)), Scale(q, b)))) == a
  {
    if Dot(a, b) == 0.0 {
      var nb := Scale(q, b);
      DotScaleRight(q, a, b);
      assert Dot(a, nb) == 0.0;
      ScaleZero(nb);
      ScaleZero(base);
      SubZeros(a);
      assert Sub(Scale(c * 0.0, nb), Scale(s * 0.0, base)) == Zeros(|a|);
      assert Add(Zeros(|a|), a) == a;
    }
  }

  /** `cos pb nb - sin pb base + pOrth`: the component `pb` turned in the
      plane of `nb` and `base`, plus the part that is kept. */
  function Rotated(c: real, s: real, pb: real, nb: Vector, base: Vector, pOrth: Vector): (r: Vector)
    requires |nb| == |base| == |pOrth|
    ensures |r| == |nb|
  {
    Add(Sub(Scale(c * pb, nb), Scale(s * pb, base)), pOrth)
  }

  /** `parallel_transport`: the three batches must have the same number of
      rows, otherwise the assertion of the method fails; no broadcasting. */
  function ParallelTransport(t: Transcendentals, tangentVecA: Batch, tangentVecB: Batch, basePoint: Batch)
    : (r: Result<Batch>)
    requires 1 <= |basePoint| && Rectangular(basePoint, |basePoint[0]|)
    requires Rectangular(tangentVecA, |basePoint[0]|) && Rectangular(tangentVecB, |basePoint[0]|)
    ensures r.Raised? <==> !(|basePoint| == |tangentVecA| == |tangentVecB|)
    ensures r.Raised? ==> r.error == AssertionError
    ensures r.Ok? ==> |r.value| == |basePoint|
    ensures r.Ok? ==> forall i :: 0 <= i < |basePoint| ==>
              r.value[i] == TransportAt(t, tangentVecA[i], tangentVecB[i], basePoint[i])
  {
    if !(|basePoint| == |tangentVecA| == |tangentVecB|) then Raised(AssertionError)
    else Ok(seq(|basePoint|, i requires 0 <= i < |basePoint| =>
                  TransportAt(t, tangentVecA[i], tangentVecB[i], basePoint[i])))
  }

  /** `x e - y u + w` for orthonormal `e`, `u` and `w` orthogonal to both has
      squared length `x^2 + y^2 + |w|^2`, component `x` along `e` and `-y`
      along `u`. */
  lemma {:induction false} OrthogonalParts(x: real, e: Vector, y: real, u: Vector, w: Vector)
    requires |e| == |u| == |w|
    requires SquaredNorm(e) == 1.0 && SquaredNorm(u) == 1.0 && Dot(e, u) == 0.0
    requires Dot(w, e) == 0.0 && Dot(w, u) == 0.0
    ensures SquaredNorm(Add(Sub(Scale(x, e), Scale(y, u)), w)) == x * x + y * y + SquaredNorm(w)
    ensures Dot(Add(Sub(Scale(x, e), Scale(y, u)), w), e) == x
    ensures Dot(Add(Sub(Scale(x, e), Scale(y, u)), w), u) == -y
  {
    var xe := Scale(x, e);
    var yu := Scale(y, u);
    var d := Sub(xe, yu);
    DotSymmetric(e, u);
    DotSymmetric(w, e);
    DotSymmetric(w, u);
    assert SquaredNorm(d) == x * x + y * y by {
      SquaredNormSub(xe, yu);
      SquaredNormScale(x, e);
      SquaredNormScale(y, u);
      DotScaleLeft(x, e, yu);
      DotScaleRight(y, e, u);
    }
    assert Dot(d, w) == 0.0 by {
      DotSubLeft(xe, yu, w);
      DotScaleLeft(x, e, w);
      DotScaleLeft(y, u, w);
    }
    SquaredNormAdd(d, w);
    assert Dot(Add(d, w), e) == x by {
      DotAddLeft(d, w, e);
      DotSubLeft(xe, yu, e);
      DotScaleLeft(x, e, e);
      DotScaleLeft(y, u, e);
    }
    assert Dot(Add(d, w), u) == -y by {
      DotAddLeft(d, w, u);
      DotSubLeft(xe, yu, u);
      DotScaleLeft(x, e, u);
      DotScaleLeft(y, u, u);
    }
  }

  /** Removing from `a` its component `pb` along a unit `e` leaves a vector
      orthogonal to `e`, of squared length `|a|^2 - pb^2`, and orthogonal to
      any `u` orthogonal to both `a` and `e`. */
  lemma {:induction false} OrthogonalRemainder(a: Vector, e: Vector, u: Vector, pb: real)
    requires |a| == |e| == |u|
    requires SquaredNorm(e) == 1.0 && pb == Dot(a, e)
    requires Dot(u, a) == 0.0 && Dot(u, e) == 0.0
    ensures Dot(Sub(a, Scale(pb, e)), e) == 0.0
    ensures Dot(Sub(a, Scale(pb, e)), u) == 0.0
    ensures SquaredNorm(Sub(a, Scale(pb, e))) == SquaredNorm(a) - pb * pb
  {
    var pe := Scale(pb, e);
    DotSubLeft(a, pe, e);
    DotScaleLeft(pb, e, e);
    DotSubLeft(a, pe, u);
    DotScaleLeft(pb, e, u);
    DotSymmetric(u, a);
    DotSymmetric(u, e);
    SquaredNormSub(a, pe);
    SquaredNormScale(pb, e);
    DotScaleRight(pb, a, e);
  }

  /** The direction `b / |b|` of a non-zero tangent vector is a unit vector
      orthogonal to the base point. */
  lemma {:induction false} UnitDirection(t: Transcendentals, b: Vector, base: Vector, theta: real, q: real)
    requires Lawful(t)
    requires |b| == |base| && SquaredNorm(b) != 0.0 && Dot(base, b) == 0.0
    requires theta == Norm(t, b) && q == Quotient(1.0, theta)
    ensures theta != 0.0 && q * theta == 1.0
    ensures SquaredNorm(Scale(q, b)) == 1.0
    ensures Dot(base, Scale(q, b)) == 0.0
  {
    NormSquared(t, b);
    assert theta != 0.0;
    SquaredNormScale(q, b);
    SquareOfProduct(q, theta, 1.0);
    DotScaleRight(q, base, b);
  }

  lemma CosSinRotation(c: real, s: real, pb: real, x: real, y: real)
    requires s * s + c * c == 1.0 && x == c * pb && y == s * pb
    ensures x * x + y * y == pb * pb
  {
    assert x * x + y * y == (s * s + c * c) * (pb * pb);
  }

  /** `TransportAt` in terms of its intermediate values. */
  lemma {:induction false} TransportParts(t: Transcendentals, a: Vector, b: Vector, base: Vector,
                                          theta: real, q: real, nb: Vector, pb: real, w: Vector,
                                          c: real, s: real)
    requires |a| == |b| == |base|
    requires theta == Norm(t, b) && q == Quotient(1.0, theta) && nb == Scale(q, b)
    requires pb == Dot(a, nb) && w == Sub(a, Scale(pb, nb))
    requires c == Cos(t, theta) && s == Sin(t, theta)
    ensures TransportAt(t, a, b, base) == Rotated(c, s, pb, nb, base, w)
  {
  }

  lemma {:induction false} RotatedAsParts(c: real, s: real, pb: real, nb: Vector, base: Vector, w: Vector,
                                          x: real, y: real)
    requires |nb| == |base| == |w|
    requires x == c * pb && y == s * pb
    ensures Rotated(c, s, pb, nb, base, w) == Add(Sub(Scale(x, nb), Scale(y, base)), w)
  {
  }

  /** The rotation part and the kept part of a transported vector, for a unit
      direction `nb` and a unit base point orthogonal to each other and to `a`. */
  lemma {:induction false} TransportAlgebra(a: Vector, nb: Vector, base: Vector, pb: real, w: Vector,
                                            c: real, s: real)
    requires |a| == |nb| == |base|
    requires SquaredNorm(nb) == 1.0 && SquaredNorm(base) == 1.0
    requires Dot(base, a) == 0.0 && Dot(base, nb) == 0.0
    requires pb == Dot(a, nb) && w == Sub(a, Scale(pb, nb))
    requires s * s + c * c == 1.0
    ensures SquaredNorm(Rotated(c, s, pb, nb, base, w)) == SquaredNorm(a)
    ensures Dot(Rotated(c, s, pb, nb, base, w), nb) == c * pb
    ensures Dot(Rotated(c, s, pb, nb, base, w), base) == -(s * pb)
  {
    var x, y := c * pb, s * pb;
    RotatedAsParts(c, s, pb, nb, base, w, x, y);
    OrthogonalRemainder(a, nb, base, pb);
    DotSymmetric(nb, base);
    OrthogonalParts(x, nb, y, base, w);
    CosSinRotation(c, s, pb, x, y);
  }

  /** Parallel transport along a non-zero tangent vector at a unit base point
      keeps the length of a tangent vector. */
  lemma {:induction false} TransportPreservesNorm(t: Transcendentals, a: Vector, b: Vector, base: Vector)
    requires Lawful(t)
    requires |a| == |b| == |base|
    requires SquaredNorm(base) == 1.0 && Dot(base, a) == 0.0 && Dot(base, b) == 0.0
    requires SquaredNorm(b) != 0.0
    ensures SquaredNorm(TransportAt(t, a, b, base)) == SquaredNorm(a)
  {
    var theta := Norm(t, b);
    var q := Quotient(1.0, theta);
    var nb := Scale(q, b);
    var pb := Dot(a, nb);
    var w := Sub(a, Scale(pb, nb));
    var c := Cos(t, theta);
    var s := Sin(t, theta);
    TransportParts(t, a, b, base, theta, q, nb, pb, w, c, s);
    UnitDirection(t, b, base, theta, q);
    assert s * s + c * c == 1.0;
    TransportAlgebra(a, nb, base, pb, w, c, s);
  }

  /** The transported vector is tangent to the sphere at the end point of the
      geodesic, `exp_base(b)`, when `b` is off the Taylor branch of `exp`. */
  lemma {:induction false} TransportIsTangentAtEndPoint(t: Transcendentals, a: Vector, b: Vector, base: Vector)
    requires Lawful(t)
    requires |a| == |b| == |base|
    requires SquaredNorm(base) == 1.0 && Dot(base, a) == 0.0 && Dot(base, b) == 0.0
    requires !IsClose(Norm(t, b), 0.0)
    ensures Dot(TransportAt(t, a, b, base), ExpAt(t, b, base)) == 0.0
  {
    var theta := Norm(t, b);
    var q := Quotient(1.0, theta);
    var nb := Scale(q, b);
    var pb := Dot(a, nb);
    var w := Sub(a, Scale(pb, nb));
    var c := Cos(t, theta);
    var s := Sin(t, theta);
    TransportParts(t, a, b, base, theta, q, nb, pb, w, c, s);
    assert SquaredNorm(b) != 0.0 by {
      SqrtZero(t);
    }
    UnitDirection(t, b, base, theta, q);
    assert s * s + c * c == 1.0;
    TransportAlgebra(a, nb, base, pb, w, c, s);
    ExpAlongDirection(t, b, base, theta, q, c, s);
    EndPointOrthogonal(Rotated(c, s, pb, nb, base, w), base, nb, c, s, pb);
  }

  /** The geodesic from `base` with tangent velocity `b` ends at
      `cos(theta) base + sin(theta) nb`, for `theta = |b|` off the Taylor
      branch and `nb = b / theta`. */
  lemma {:induction false} ExpAlongDirection(t: Transcendentals, b: Vector, base: Vector,
                                             theta: real, q: real, c: real, s: real)
    requires |b| == |base| && Dot(base, b) == 0.0
    requires theta == Norm(t, b) && !IsClose(theta, 0.0) && q * theta == 1.0
    requires c == Cos(t, theta) && s == Sin(t, theta)
    ensures ExpAt(t, b, base) == Add(Scale(c, base), Scale(s, Scale(q, b)))
  {
    var k := Quotient(s, theta);
    assert TangentAt(b, base) == b by {
      TangentAtFixesTangent(b, base);
    }
    ExpAtClosedForm(t, b, base, b, theta, c, k);
    ScaleOfScale(s, q, b, k, theta);
  }

  /** A vector with components `x = c pb` along `nb` and `-y = -s pb` along
      `base` is orthogonal to `c base + s nb`. */
  lemma {:induction false} EndPointOrthogonal(tr: Vector, base: Vector, nb: Vector,
                                              c: real, s: real, pb: real)
    requires |tr| == |base| == |nb|
    requires Dot(tr, nb) == c * pb && Dot(tr, base) == -(s * pb)
    ensures Dot(tr, Add(Scale(c, base), Scale(s, nb))) == 0.0
  {
    DotAddRight(tr, Scale(c, base), Scale(s, nb));
    DotScaleRight(c, tr, base);
    DotScaleRight(s, tr, nb);
  }

  /** `s (q b) = (s q) b`, and `s q` is `s / theta` when `q theta = 1`. */
  lemma {:induction false} ScaleOfScale(s: real, q: real, b: Vector, k: real, theta: real)
    requires theta != 0.0 && q * theta == 1.0 && k * theta == s
    ensures Scale(k, b) == Scale(s, Scale(q, b))
  {
    assert k == s * q by {
      assert (k - s * q) * theta == 0.0;
    }
    forall j | 0 <= j < |b|
      ensures Scale(k, b)[j] == Scale(s, Scale(q, b))[j]
    {
      assert s * (q * b[j]) == (s * q) * b[j];
    }
  }

  /** The distance is symmetric, row by row. */
  lemma {:induction false} DistSymmetric(t: Transcendentals, pointA: Batch, pointB: Batch)
    requires Conformable(pointA, pointB)
    ensures Conformable(pointB, pointA)
    ensures Dist(t, pointA, pointB) == Dist(t, pointB, pointA)
  {
    forall i | 0 <= i < Max(|pointA|, |pointB|)
      ensures Dist(t, pointA, pointB)[i] == Dist(t, pointB, pointA)[i]
    {
      ConformableRows(pointA, pointB, i);
      AngleSymmetric(t, RowAt(pointA, i), RowAt(pointB, i));
    }
  }

  lemma {:induction false} AngleSymmetric(t: Transcendentals, u: Vector, v: Vector)
    requires |u| == |v|
    ensures Angle(t, u, v) == Angle(t, v, u)
  {
    DotSymmetric(u, v);
    assert NormProduct(t, u, v) == NormProduct(t, v, u);
  }

  /** Every non-zero point is at distance zero from itself. */
  lemma {:induction false} DistToItself(t: Transcendentals, point: Batch)
    requires Lawful(t)
    requires Conformable(point, point)
    requires forall i :: 0 <= i < |point| ==> SquaredNorm(point[i]) != 0.0
    ensures forall i :: 0 <= i < |point| ==> Dist(t, point, point)[i] == 0.0
  {
    forall i | 0 <= i < |point|
      ensures Dist(t, point, point)[i] == 0.0
    {
      AngleToItself(t, point[i]);
    }
  }

  lemma {:induction false} AngleToItself(t: Transcendentals, u: Vector)
    requires Lawful(t)
    requires SquaredNorm(u) != 0.0
    ensures Angle(t, u, u) == 0.0
  {
    NormSquared(t, u);
    assert NormProduct(t, u, u) == SquaredNorm(u);
    var q := Quotient(Dot(u, u), NormProduct(t, u, u));
    assert q == 1.0 by {
      SelfQuotient(q, SquaredNorm(u));
    }
  }

  lemma SelfQuotient(q: real, x: real)
    requires x != 0.0 && q * x == x
    ensures q == 1.0
  {
    assert (q - 1.0) * x == 0.0;
  }

  /** The logarithm of a point at itself is the zero vector. */
  lemma {:induction false} LogOfItself(t: Transcendentals, point: Batch)
    requires Conformable(point, point)
    ensures forall i :: 0 <= i < |point| ==> LogAt(t, point[i], point[i]) == Zeros(|point[i]|)
  {
    forall i | 0 <= i < |point|
      ensures LogAt(t, point[i], point[i]) == Zeros(|point[i]|)
    {
      var p := point[i];
      assert SamePoint(p, p) by {
        forall j | 0 <= j < |p|
          ensures IsClose(p[j], p[j])
        {
          assert Abs(p[j] - p[j]) == 0.0;
        }
      }
    }
  }

  /** Two unit points where `log` takes its closed form and the closed forms
      are defined: not coordinate-wise close, an angle outside the Taylor
      branch, and neither antipodal nor at a right angle (where `tan` has a
      pole). */
  ghost predicate RegularPair(t: Transcendentals, p: Vector, b: Vector)
    requires |p| == |b|
  {
    && SquaredNorm(p) == 1.0 && SquaredNorm(b) == 1.0
    && !SamePoint(p, b)
    && !IsClose(Angle(t, b, p), 0.0)
    && Dot(b, p) != 0.0 && Dot(b, p) != -1.0
  }

  /** On unit vectors, the clipped cosine is the plain inner product. */
  lemma {:induction false} CosAngleOfUnits(t: Transcendentals, u: Vector, v: Vector)
    requires Lawful(t)
    requires |u| == |v| && SquaredNorm(u) == 1.0 && SquaredNorm(v) == 1.0
    ensures CosAngle(t, u, v) == Dot(u, v)
  {
    SqrtOne(t);
    assert NormProduct(t, u, v) == 1.0;
    UnitDotBounds(u, v);
  }

  /** At an angle `theta = arccos c` off the Taylor branch, with `c` neither 0
      nor -1: `theta > 0`, `sin theta != 0`, `(theta / sin) sin = theta` and
      `theta / tan = (theta / sin) c`. */
  lemma LogCoefficientsAtAngle(t: Transcendentals, c: real, theta: real)
    requires Lawful(t)
    requires -1.0 <= c <= 1.0 && c != 0.0 && c != -1.0
    requires theta == Arccos(t, c) && !IsClose(theta, 0.0)
    ensures 0.0 < theta && Cos(t, theta) == c
    ensures Sin(t, theta) != 0.0
    ensures Sin(t, theta) * Sin(t, theta) == 1.0 - c * c
    ensures LogPointCoefficient(t, theta) * Sin(t, theta) == theta
    ensures LogBaseCoefficient(t, theta) == LogPointCoefficient(t, theta) * c
  {
    assert theta != 0.0 by {
      assert IsClose(0.0, 0.0);
    }
    var s := Sin(t, theta);
    assert s * s + c * c == 1.0;
    assert c != 1.0;
    assert s * s > 0.0 by {
      assert (1.0 - c) * (1.0 + c) > 0.0;
    }
    var tn := Tan(t, theta);
    assert tn * c == s;
    var c1 := Quotient(theta, s);
    var c2 := Quotient(theta, tn);
    assert tn != 0.0;
    assert c1 * s == theta && c2 * tn == theta;
    assert LogPointCoefficient(t, theta) == c1;
    assert LogBaseCoefficient(t, theta) == c2;
    assert (c2 - c1 * c) * tn == 0.0 by {
      assert c1 * c * tn == c1 * s;
    }
  }

  /** On a regular pair the angle is `arccos <b, p>`, its sine is non-zero,
      and the logarithm takes its closed form, whose base-point coefficient is
      the point coefficient times `<b, p>`. */
  lemma {:induction false} LogAtRegular(t: Transcendentals, p: Vector, b: Vector,
                                        theta: real, c: real, c1: real, kb: real, sn: real)
    requires Lawful(t)
    requires |p| == |b| && RegularPair(t, p, b)
    requires theta == Angle(t, b, p) && c == Dot(b, p) && sn == Sin(t, theta)
    requires c1 == LogPointCoefficient(t, theta) && kb == LogBaseCoefficient(t, theta)
    ensures theta == Arccos(t, c)
    ensures 0.0 < theta && Cos(t, theta) == c
    ensures sn != 0.0 && sn * sn == 1.0 - c * c
    ensures c1 * sn == theta
    ensures kb == c1 * c
    ensures LogAt(t, p, b) == Sub(Scale(c1, p), Scale(kb, b))
  {
    assert CosAngle(t, b, p) == c by {
      CosAngleOfUnits(t, b, p);
    }
    UnitDotBounds(b, p);
    LogCoefficientsAtAngle(t, c, theta);
    assert !SamePoint(p, b);
  }

  /** `|c1 p - c1 c b|^2 = theta^2` for unit `p`, `b` with `<p, b> = c`,
      `c1 s = theta` and `s^2 = 1 - c^2`. */
  lemma LogNormIdentity(c1: real, c: real, s: real, theta: real, k: real, np: real, d: real, nb: real)
    requires c1 * s == theta && s * s == 1.0 - c * c && k == c1 * c
    requires np == 1.0 && d == c && nb == 1.0
    ensures c1 * c1 * np - 2.0 * (c1 * k * d) + k * k * nb == theta * theta
  {
    assert c1 * c1 * np - 2.0 * (c1 * k * d) + k * k * nb == c1 * c1 * (1.0 - c * c);
    assert theta * theta == c1 * c1 * (s * s);
  }

  /** On a regular pair the logarithm is tangent at the base point and its
      length is the angle between the two points, that is their distance. */
  lemma {:induction false} LogIsTangentOfLengthAngle(t: Transcendentals, p: Vector, b: Vector)
    requires Lawful(t)
    requires |p| == |b| && RegularPair(t, p, b)
    ensures Dot(b, LogAt(t, p, b)) == 0.0
    ensures SquaredNorm(LogAt(t, p, b)) == Angle(t, b, p) * Angle(t, b, p)
    ensures Norm(t, LogAt(t, p, b)) == Angle(t, b, p)
  {
    var theta, l := Angle(t, b, p), LogAt(t, p, b);
    LogShape(t, p, b, theta, l);
    SqrtOfSquare(t, theta, SquaredNorm(l));
  }

  /** The algebra behind `LogIsTangentOfLengthAngle`, on the angle `theta`
      and the logarithm `l` of a regular pair. */
  lemma {:induction false} LogShape(t: Transcendentals, p: Vector, b: Vector, theta: real, l: Vector)
    requires Lawful(t)
    requires |p| == |b| && RegularPair(t, p, b)
    requires theta == Angle(t, b, p) && l == LogAt(t, p, b)
    ensures 0.0 < theta && Dot(b, l) == 0.0 && SquaredNorm(l) == theta * theta
  {
    var c := Dot(b, p);
    var c1 := LogPointCoefficient(t, theta);
    var kb := LogBaseCoefficient(t, theta);
    var sn := Sin(t, theta);
    assert kb == c1 * c && l == Sub(Scale(c1, p), Scale(kb, b))
        && 0.0 < theta && c1 * sn == theta && sn * sn == 1.0 - c * c by {
      LogAtRegular(t, p, b, theta, c, c1, kb, sn);
    }
    LogAlgebra(c1, kb, c, sn, theta, p, b);
  }

  /** `c1 p - kb b` is orthogonal to `b` and has squared length `theta^2`,
      for unit `p`, `b` with `<b, p> = c`, `kb = c1 c`, `c1 s = theta` and
      `s^2 = 1 - c^2`. */
  lemma {:induction false} LogAlgebra(c1: real, kb: real, c: real, s: real, theta: real, p: Vector, b: Vector)
    requires |p| == |b| && SquaredNorm(p) == 1.0 && SquaredNorm(b) == 1.0 && Dot(b, p) == c
    requires kb == c1 * c && c1 * s == theta && s * s == 1.0 - c * c
    ensures Dot(b, Sub(Scale(c1, p), Scale(kb, b))) == 0.0
    ensures SquaredNorm(Sub(Scale(c1, p), Scale(kb, b))) == theta * theta
  {
    var x := Scale(c1, p);
    var y := Scale(kb, b);
    assert Dot(b, Sub(x, y)) == 0.0 by {
      DotSubRight(b, x, y);
      DotScaleRight(c1, b, p);
      DotScaleRight(kb, b, b);
    }
    calc {
      SquaredNorm(Sub(x, y));
    == { SquaredNormDifference(c1, p, kb, b); }
      c1 * c1 * SquaredNorm(p) - 2.0 * (c1 * kb * Dot(p, b)) + kb * kb * SquaredNorm(b);
    == { DotSymmetric(p, b);
         LogNormIdentity(c1, c, s, theta, kb, SquaredNorm(p), Dot(p, b), SquaredNorm(b)); }
      theta * theta;
    }
  }

  /** `c b_j + k (c1 p_j - c1 c b_j) = p_j` when `k c1 = 1`. */
  lemma ExpLogEntry(c: real, k: real, c1: real, kb: real, pj: real, bj: real)
    requires k * c1 == 1.0 && kb == c1 * c
    ensures c * bj + k * (c1 * pj - kb * bj) == pj
  {
    assert k * (c1 * pj - kb * bj) == (k * c1) * pj - (k * c1) * c * bj;
  }

  lemma ReciprocalCoefficients(k: real, c1: real, s: real, theta: real)
    requires k * theta == s && c1 * s == theta && s != 0.0
    ensures k * c1 == 1.0
  {
    var q := k * c1;
    calc {
      q * s;
      k * (c1 * s);
      k * theta;
      s;
    }
    SelfQuotient(q, s);
  }

  /** The exponential map undoes the logarithm: shooting from the base point
      along `log(p)` reaches `p`. */
  lemma {:induction false} ExpOfLog(t: Transcendentals, p: Vector, b: Vector)
    requires Lawful(t)
    requires |p| == |b| && RegularPair(t, p, b)
    ensures ExpAt(t, LogAt(t, p, b), b) == p
  {
    var theta := Angle(t, b, p);
    var c := Dot(b, p);
    var c1 := LogPointCoefficient(t, theta);
    var kb := LogBaseCoefficient(t, theta);
    var sn := Sin(t, theta);
    var l := LogAt(t, p, b);
    assert kb == c1 * c && l == Sub(Scale(c1, p), Scale(kb, b))
        && Cos(t, theta) == c && c1 * sn == theta && sn != 0.0 by {
      LogAtRegular(t, p, b, theta, c, c1, kb, sn);
    }
    assert Dot(b, l) == 0.0 && Norm(t, l) == theta by {
      LogIsTangentOfLengthAngle(t, p, b);
    }
    var k := Quotient(sn, theta);
    assert TangentAt(l, b) == l by {
      TangentAtFixesTangent(l, b);
    }
    ExpAtClosedForm(t, l, b, l, theta, c, k);
    ExpOfLogAlgebra(c, k, c1, kb, sn, theta, p, b);
  }

  /** `cos(theta) b + (sin(theta) / theta) (c1 p - kb b) = p` once
      `c1 sin(theta) = theta` and `kb = c1 cos(theta)`. */
  lemma {:induction false} ExpOfLogAlgebra(c: real, k: real, c1: real, kb: real, s: real, theta: real,
                                           p: Vector, b: Vector)
    requires |p| == |b|
    requires theta != 0.0 && k == Quotient(s, theta)
    requires s != 0.0 && c1 * s == theta && kb == c1 * c
    ensures Add(Scale(c, b), Scale(k, Sub(Scale(c1, p), Scale(kb, b)))) == p
  {
    ReciprocalCoefficients(k, c1, s, theta);
    var l := Sub(Scale(c1, p), Scale(kb, b));
    var e := Add(Scale(c, b), Scale(k, l));
    forall j | 0 <= j < |p|
      ensures e[j] == p[j]
    {
      ExpLogEntry(c, k, c1, kb, p[j], b[j]);
    }
  }

  // ---------------------------------------------------------------------------
  // Christoffel symbols of the 2-sphere in spherical coordinates

  /** Symbols `gamma[k][i][j]`: contravariant index `k`, covariant `i`, `j`. */
  type Symbols = seq<seq<seq<real>>>

  /** The symbols at a point of colatitude `theta`: `gamma^0_11 = -sin cos`,
      `gamma^1_01 = gamma^1_10 = cos / sin`, all others zero. */
  function ChristoffelAt(t: Transcendentals, theta: real): (r: Symbols)
    ensures |r| == 2 && forall k :: 0 <= k < 2 ==> |r[k]| == 2 && |r[k][0]| == 2 && |r[k][1]| == 2
  {
    var cot := Quotient(Cos(t, theta), Sin(t, theta));
    [[[0.0, 0.0], [0.0, -Sin(t, theta) * Cos(t, theta)]],
     [[0.0, cot], [cot, 0.0]]]
  }

  /** Two-by-two-by-two symbols with `gamma[k][0][1] == gamma[k][1][0]`. */
  predicate SymmetricInLowerIndices(g: Symbols) {
    |g| == 2 && forall k :: 0 <= k < 2 ==>
      |g[k]| == 2 && |g[k][0]| == 2 && |g[k][1]| == 2 && g[k][0][1] == g[k][1][0]
  }

  /** `christoffels`: only the 2-sphere in spherical coordinates is supported;
      the symbols of each row are computed in turn from its first coordinate
      and stacked, which fails on an empty batch. */
  method Christoffels(t: Transcendentals, dimension: nat, point: Batch, pointType: string)
    returns (r: Result<seq<Symbols>>)
    requires forall i :: 0 <= i < |point| ==> 1 <= |point[i]|
    ensures (dimension != 2 || pointType != "spherical") ==> r == Raised(NotImplementedError)
    ensures (dimension == 2 && pointType == "spherical" && |point| == 0) ==> r == Raised(ValueError)
    ensures r.Ok? <==> (dimension == 2 && pointType == "spherical" && |point| != 0)
    ensures r.Ok? ==> |r.value| == |point|
    ensures r.Ok? ==> forall i :: 0 <= i < |point| ==> r.value[i] == ChristoffelAt(t, point[i][0])
    ensures r.Ok? ==> forall i :: 0 <= i < |point| ==> SymmetricInLowerIndices(r.value[i])
  {
    if dimension != 2 || pointType != "spherical" {
      return Raised(NotImplementedError);
    }
    var christoffel: seq<Symbols> := [];
    var i := 0;
    while i < |point|
      invariant 0 <= i <= |point| && |christoffel| == i
      invariant forall j :: 0 <= j < i ==> christoffel[j] == ChristoffelAt(t, point[j][0])
    {
      christoffel := christoffel + [ChristoffelAt(t, point[i][0])];
      i := i + 1;
    }
    if |christoffel| == 0 {
      return Raised(ValueError);
    }
    return Ok(christoffel);
  }

  /** Partial derivative `d_l g_ij` of the round metric `diag(1, sin^2 theta)`
      in the coordinates `(theta, phi)`: only `d_0 g_11 = 2 sin cos` is non-zero. */
  function MetricDerivative(t: Transcendentals, theta: real, l: nat, i: nat, j: nat): real {
    if l == 0 && i == 1 && j == 1 then 2.0 * (Sin(t, theta) * Cos(t, theta)) else 0.0
  }

  /** Inverse of the round metric, `diag(1, 1 / sin^2 theta)`. */
  function InverseMetric(t: Transcendentals, theta: real, k: nat, l: nat): real {
    if k != l then 0.0
    else if k == 0 then 1.0
    else Quotient(1.0, Sin(t, theta) * Sin(t, theta))
  }

  /** Term `l` of the Levi-Civita formula: `g^kl (d_i g_jl + d_j g_il - d_l g_ij)`. */
  function LeviCivitaTerm(t: Transcendentals, theta: real, k: nat, i: nat, j: nat, l: nat): real {
    InverseMetric(t, theta, k, l)
      * (MetricDerivative(t, theta, i, j, l) + MetricDerivative(t, theta, j, i, l)
         - MetricDerivative(t, theta, l, i, j))
  }

  /** `gamma^k_ij = 1/2 sum_l g^kl (d_i g_jl + d_j g_il - d_l g_ij)` in two dimensions. */
  function LeviCivita(t: Transcendentals, theta: real, k: nat, i: nat, j: nat): real {
    0.5 * (LeviCivitaTerm(t, theta, k, i, j, 0) + LeviCivitaTerm(t, theta, k, i, j, 1))
  }

  /** Away from the poles (`sin theta != 0`), the symbols of the method are
      those of the Levi-Civita connection of the round metric. */
  lemma {:induction false} ChristoffelsAreLeviCivita(t: Transcendentals, theta: real)
    requires Sin(t, theta) != 0.0
    ensures forall k, i, j :: 0 <= k < 2 && 0 <= i < 2 && 0 <= j < 2 ==>
              ChristoffelAt(t, theta)[k][i][j] == LeviCivita(t, theta, k, i, j)
  {
    forall k, i, j | 0 <= k < 2 && 0 <= i < 2 && 0 <= j < 2
      ensures ChristoffelAt(t, theta)[k][i][j] == LeviCivita(t, theta, k, i, j)
    {
      LeviCivitaEntry(t, theta, k, i, j, Sin(t, theta), Cos(t, theta), ChristoffelAt(t, theta));
    }
  }

  /** One entry of `ChristoffelsAreLeviCivita`, with `sin`, `cos` and the
      symbols passed in. */
  lemma {:induction false} LeviCivitaEntry(t: Transcendentals, theta: real, k: nat, i: nat, j: nat,
                                           s: real, c: real, g: Symbols)
    requires k < 2 && i < 2 && j < 2
    requires s == Sin(t, theta) && c == Cos(t, theta) && s != 0.0 && g == ChristoffelAt(t, theta)
    ensures g[k][i][j] == LeviCivita(t, theta, k, i, j)
  {
    if k == 0 && i == 1 && j == 1 {
      assert LeviCivitaTerm(t, theta, 0, 1, 1, 0) == -(2.0 * (s * c));
      assert LeviCivitaTerm(t, theta, 0, 1, 1, 1) == 0.0;
    } else if k == 1 && i != j {
      var inv := Quotient(1.0, s * s);
      HalfInverseSquare(s, c, inv);
      assert LeviCivitaTerm(t, theta, 1, i, j, 0) == 0.0;
      assert LeviCivitaTerm(t, theta, 1, i, j, 1) == inv * (2.0 * (s * c));
    } else {
      assert LeviCivitaTerm(t, theta, k, i, j, 0) == 0.0;
      assert LeviCivitaTerm(t, theta, k, i, j, 1) == 0.0;
    }
  }

  /** `c / s = 1/2 (1 / s^2) (2 s c)` for `s != 0`. */
  lemma HalfInverseSquare(s: real, c: real, inv: real)
    requires s != 0.0 && inv == Quotient(1.0, s * s)
    ensures Quotient(c, s) == 0.5 * (inv * (2.0 * (s * c)))
  {
    assert inv * (s * s) == 1.0;
    var q := Quotient(c, s);
    assert q * s == c;
    assert 0.5 * (inv * (2.0 * (s * c))) == inv * (s * s) * (c / s);
  }
}
