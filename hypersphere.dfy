/** The d-dimensional hypersphere as the unit sphere of (d+1)-dimensional
    Euclidean space: membership, projections and the coordinate maps
    (class `Hypersphere` of geomstats/geometry/hypersphere.py).

    The class holds nothing but its dimension, fixed at construction with
    `0 < dimension`; here the dimension is a parameter. Points are batches of
    extrinsic coordinate rows. */
module Hypersphere {
  import opened Numerics
  import opened Vectors
  import opened Exceptions

  /** Default tolerance of `belongs`. */
  const TOLERANCE: real := 1e-6

  /** Outcome of `belongs`: one verdict per row, and whether the advisory
      warning about intrinsic coordinates was logged. */
  datatype Membership = Membership(belongs: seq<bool>, warned: bool)

  predicate AllTrue(bs: seq<bool>) {
    forall i :: 0 <= i < |bs| ==> bs[i]
  }

  /** Is each row of `point` (rows of width `pointDim`) on the sphere within
      `tolerance`? A batch of the wrong width gets the single verdict false,
      with a warning when its width is the intrinsic dimension. */
  function Belongs(dimension: nat, point: Batch, pointDim: nat, tolerance: real): (r: Membership)
    requires 0 < dimension
    requires Rectangular(point, pointDim)
    ensures pointDim != dimension + 1 ==> r.belongs == [false]
    ensures r.warned <==> pointDim == dimension
    ensures pointDim == dimension + 1 ==>
              |r.belongs| == |point| &&
              forall i :: 0 <= i < |point| ==>
                (r.belongs[i] <==> Abs(SquaredNorm(point[i]) - 1.0) <= tolerance)
  {
    if pointDim != dimension + 1 then
      Membership([false], pointDim == dimension)
    else
      Membership(seq(|point|, i requires 0 <= i < |point| =>
                       Abs(SquaredNorm(point[i]) - 1.0) <= tolerance), false)
  }

  /** The warning test as written, `point_dim is self.dimension`: an identity
      comparison, which CPython makes true for equal integers only inside its
      small-integer cache, -5 to 256. */
  predicate WarnsAsWritten(dimension: nat, pointDim: nat) {
    pointDim == dimension && dimension <= 256
  }

  /** A 257-dimensional sphere given 257-wide (intrinsic) rows: the code as
      written stays silent, where the intended test warns. */
  lemma IdentityCheckMissesLargeDimension()
    ensures !WarnsAsWritten(257, 257)
    ensures Belongs(257, [], 257, TOLERANCE).warned
  {
  }

  /** Divide each row by its norm. A zero row has no image (IEEE gives NaN).
      Each non-zero row becomes the unit vector along it: length 1, and its
      inner product with the row is the row's norm. */
  function Projection(t: Transcendentals, point: Batch): (r: Batch)
    ensures |r| == |point|
    ensures forall i :: 0 <= i < |point| ==> |r[i]| == |point[i]|
    ensures Lawful(t) ==>
              forall i :: 0 <= i < |point| && SquaredNorm(point[i]) != 0.0 ==>
                SquaredNorm(r[i]) == 1.0 && Dot(r[i], point[i]) == Norm(t, point[i])
  {
    NormalizedRows(t, point);
    seq(|point|, i requires 0 <= i < |point| => DivideBy(point[i], Norm(t, point[i])))
  }

  lemma {:induction false} NormalizedRows(t: Transcendentals, point: Batch)
    ensures Lawful(t) ==>
              forall i :: 0 <= i < |point| && SquaredNorm(point[i]) != 0.0 ==>
                var u := DivideBy(point[i], Norm(t, point[i]));
                SquaredNorm(u) == 1.0 && Dot(u, point[i]) == Norm(t, point[i])
  {
    if Lawful(t) {
      forall i | 0 <= i < |point| && SquaredNorm(point[i]) != 0.0
        ensures SquaredNorm(DivideBy(point[i], Norm(t, point[i]))) == 1.0
        ensures Dot(DivideBy(point[i], Norm(t, point[i])), point[i]) == Norm(t, point[i])
      {
        NormalizedIsUnit(t, point[i]);
        NormalizedAlongRow(t, point[i]);
      }
    }
  }

  lemma {:induction false} NormalizedIsUnit(t: Transcendentals, v: Vector)
    requires Lawful(t)
    requires SquaredNorm(v) != 0.0
    ensures SquaredNorm(DivideBy(v, Norm(t, v))) == 1.0
  {
    var n := Norm(t, v);
    NormSquared(t, v);
    assert n != 0.0;
    DivideByIsScale(v, n);
    SquaredNormScale(1.0 / n, v);
    assert (1.0 / n) * (1.0 / n) * (n * n) == 1.0;
  }

  /** The normalised row has inner product `|v|` with `v`. */
  lemma {:induction false} NormalizedAlongRow(t: Transcendentals, v: Vector)
    requires Lawful(t)
    requires SquaredNorm(v) != 0.0
    ensures Dot(DivideBy(v, Norm(t, v)), v) == Norm(t, v)
  {
    var n := Norm(t, v);
    NormSquared(t, v);
    assert n != 0.0;
    DivideByIsScale(v, n);
    DotScaleLeft(1.0 / n, v, v);
    assert (1.0 / n) * (n * n) == n;
  }

  /** The projection of non-zero rows of the right width belongs to the
      sphere for every non-negative tolerance. */
  lemma {:induction false} ProjectionBelongs(t: Transcendentals, dimension: nat, point: Batch, tolerance: real)
    requires Lawful(t)
    requires 0 < dimension && 0.0 <= tolerance
    requires Rectangular(point, dimension + 1)
    requires forall i :: 0 <= i < |point| ==> SquaredNorm(point[i]) != 0.0
    ensures AllTrue(Belongs(dimension, Projection(t, point), dimension + 1, tolerance).belongs)
  {
    var r := Projection(t, point);
    assert forall i :: 0 <= i < |r| ==> SquaredNorm(r[i]) == 1.0;
  }

  /** `regularize`: assert membership (default tolerance), then project. */
  function Regularize(t: Transcendentals, dimension: nat, point: Batch, pointDim: nat): (r: Result<Batch>)
    requires 0 < dimension
    requires Rectangular(point, pointDim)
    ensures r.Ok? <==>
              pointDim == dimension + 1 &&
              forall i :: 0 <= i < |point| ==> Abs(SquaredNorm(point[i]) - 1.0) <= TOLERANCE
    ensures r.Raised? ==> r.error == AssertionError
    ensures r.Ok? ==> r.value == Projection(t, point)
  {
    var verdict := Belongs(dimension, point, pointDim, TOLERANCE).belongs;
    assert !AllTrue([false]) by { assert ![false][0]; }
    if AllTrue(verdict) then
      Ok(Projection(t, point))
    else
      Raised(AssertionError)
  }

  /** A regularized batch lies exactly on the sphere. */
  lemma {:induction false} RegularizeOnSphere(t: Transcendentals, dimension: nat, point: Batch, pointDim: nat)
    requires Lawful(t)
    requires 0 < dimension
    requires Rectangular(point, pointDim)
    requires Regularize(t, dimension, point, pointDim).Ok?
    ensures forall i :: 0 <= i < |point| ==>
              SquaredNorm(Regularize(t, dimension, point, pointDim).value[i]) == 1.0
  {
    forall i | 0 <= i < |point|
      ensures SquaredNorm(point[i]) != 0.0
    {
      assert Abs(SquaredNorm(point[i]) - 1.0) <= TOLERANCE;
    }
  }

  /** Tangent projection of one vector at one base point:
      `v - (<p, v> / <p, p>) p`. */
  function TangentAt(v: Vector, p: Vector): (r: Vector)
    requires |v| == |p|
    ensures |r| == |v|
  {
    Sub(v, Scale(Quotient(Dot(p, v), SquaredNorm(p)), p))
  }

  /** The tangent projection is orthogonal to a non-zero base point. */
  lemma {:induction false} TangentAtOrthogonal(v: Vector, p: Vector)
    requires |v| == |p|
    requires SquaredNorm(p) != 0.0
    ensures Dot(TangentAt(v, p), p) == 0.0
  {
    var c := Quotient(Dot(p, v), SquaredNorm(p));
    DotSubLeft(v, Scale(c, p), p);
    DotScaleLeft(c, p, p);
    DotSymmetric(v, p);
  }

  /** A vector already orthogonal to the base point is left unchanged. */
  lemma {:induction false} TangentAtFixesTangent(v: Vector, p: Vector)
    requires |v| == |p|
    requires Dot(p, v) == 0.0
    ensures TangentAt(v, p) == v
  {
    ScaleZero(p);
    SubZeros(v);
  }

  /** Projecting twice is projecting once. */
  lemma {:induction false} TangentAtIdempotent(v: Vector, p: Vector)
    requires |v| == |p|
    requires SquaredNorm(p) != 0.0
    ensures TangentAt(TangentAt(v, p), p) == TangentAt(v, p)
  {
    TangentAtOrthogonal(v, p);
    DotSymmetric(TangentAt(v, p), p);
    TangentAtFixesTangent(TangentAt(v, p), p);
  }

  /** `projection_to_tangent_space`, row by row after broadcasting: each row
      is the tangent projection of its vector, orthogonal to a non-zero base
      point, and a vector that is already tangent is returned unchanged. */
  function ProjectionToTangentSpace(vector: Batch, basePoint: Batch): (r: Batch)
    requires Conformable(vector, basePoint)
    ensures |r| == Max(|vector|, |basePoint|)
    ensures forall i :: 0 <= i < |r| ==> |r[i]| == |vector[0]|
    ensures forall i :: 0 <= i < |r| ==> r[i] == TangentAt(RowAt(vector, i), RowAt(basePoint, i))
    ensures forall i :: 0 <= i < |r| && SquaredNorm(RowAt(basePoint, i)) != 0.0 ==>
              Dot(r[i], RowAt(basePoint, i)) == 0.0
    ensures forall i :: 0 <= i < |r| && Dot(RowAt(basePoint, i), RowAt(vector, i)) == 0.0 ==>
              r[i] == RowAt(vector, i)
  {
    var n := Max(|vector|, |basePoint|);
    var r := seq(n, i requires 0 <= i < n => TangentAt(RowAt(vector, i), RowAt(basePoint, i)));
    AllTangentsOrthogonal(vector, basePoint);
    TangentRowsFixed(vector, basePoint);
    r
  }

  lemma {:induction false} TangentRowsFixed(vector: Batch, basePoint: Batch)
    requires Conformable(vector, basePoint)
    ensures forall i :: 0 <= i < Max(|vector|, |basePoint|) && Dot(RowAt(basePoint, i), RowAt(vector, i)) == 0.0 ==>
              TangentAt(RowAt(vector, i), RowAt(basePoint, i)) == RowAt(vector, i)
  {
    forall i | 0 <= i < Max(|vector|, |basePoint|) && Dot(RowAt(basePoint, i), RowAt(vector, i)) == 0.0
      ensures TangentAt(RowAt(vector, i), RowAt(basePoint, i)) == RowAt(vector, i)
    {
      TangentAtFixesTangent(RowAt(vector, i), RowAt(basePoint, i));
    }
  }

  lemma {:induction false} AllTangentsOrthogonal(vector: Batch, basePoint: Batch)
    requires Conformable(vector, basePoint)
    ensures forall i :: 0 <= i < Max(|vector|, |basePoint|) && SquaredNorm(RowAt(basePoint, i)) != 0.0 ==>
              Dot(TangentAt(RowAt(vector, i), RowAt(basePoint, i)), RowAt(basePoint, i)) == 0.0
  {
    forall i | 0 <= i < Max(|vector|, |basePoint|) && SquaredNorm(RowAt(basePoint, i)) != 0.0
      ensures Dot(TangentAt(RowAt(vector, i), RowAt(basePoint, i)), RowAt(basePoint, i)) == 0.0
    {
      TangentAtOrthogonal(RowAt(vector, i), RowAt(basePoint, i));
    }
  }

  /** Python's `row[1:]`. */
  function DropFirst(v: Vector): (r: Vector)
    ensures |v| != 0 ==> r == v[1..]
    ensures |v| == 0 ==> r == []
  {
    if |v| == 0 then [] else v[1..]
  }

  /** `intrinsic_to_extrinsic_coords`: prepend `sqrt(1 - |x|^2)`, where `|x|`
      is itself a square root. Rows with `|x| > 1` have no real image
      (NaN in the source; the square root is unconstrained there). */
  function IntrinsicToExtrinsicCoords(t: Transcendentals, pointIntrinsic: Batch): (r: Batch)
    ensures |r| == |pointIntrinsic|
    ensures forall i :: 0 <= i < |r| ==> |r[i]| == |pointIntrinsic[i]| + 1
  {
    seq(|pointIntrinsic|, i requires 0 <= i < |pointIntrinsic| => ExtrinsicRow(t, pointIntrinsic[i]))
  }

  function ExtrinsicRow(t: Transcendentals, x: Vector): Vector {
    [FirstCoordinate(t, x)] + x
  }

  function OneMinusSquare(c: real): real {
    1.0 - c * c
  }

  /** `sqrt(1 - norm(x) ** 2)`. */
  function FirstCoordinate(t: Transcendentals, x: Vector): real {
    Sqrt(t, OneMinusSquare(Norm(t, x)))
  }

  /** `extrinsic_to_intrinsic_coords`: drop the first column. */
  function ExtrinsicToIntrinsicCoords(pointExtrinsic: Batch): (r: Batch)
    ensures |r| == |pointExtrinsic|
  {
    seq(|pointExtrinsic|, i requires 0 <= i < |pointExtrinsic| => DropFirst(pointExtrinsic[i]))
  }

  /** Dropping the first column undoes prepending one. */
  lemma {:induction false} IntrinsicRoundTrip(t: Transcendentals, x: Batch)
    ensures ExtrinsicToIntrinsicCoords(IntrinsicToExtrinsicCoords(t, x)) == x
  {
    var y := IntrinsicToExtrinsicCoords(t, x);
    forall i | 0 <= i < |x|
      ensures ExtrinsicToIntrinsicCoords(y)[i] == x[i]
    {
      assert y[i][1..] == x[i];
    }
  }

  /** Rows inside the unit ball are lifted onto the sphere. */
  lemma {:induction false} IntrinsicToExtrinsicOnSphere(t: Transcendentals, x: Batch)
    requires Lawful(t)
    requires forall i :: 0 <= i < |x| ==> SquaredNorm(x[i]) <= 1.0
    ensures forall i :: 0 <= i < |x| ==> SquaredNorm(IntrinsicToExtrinsicCoords(t, x)[i]) == 1.0
  {
    forall i | 0 <= i < |x|
      ensures SquaredNorm(IntrinsicToExtrinsicCoords(t, x)[i]) == 1.0
    {
      NormSquared(t, x[i]);
      assert ([FirstCoordinate(t, x[i])] + x[i])[1..] == x[i];
      SquaredNormHead([FirstCoordinate(t, x[i])] + x[i]);
    }
  }

  /** On the closed upper hemisphere (first coordinate non-negative) the
      extrinsic coordinates are recovered from the intrinsic ones. */
  lemma {:induction false} ExtrinsicRoundTrip(t: Transcendentals, x: Batch)
    requires Lawful(t)
    requires forall i :: 0 <= i < |x| ==> 1 <= |x[i]| && SquaredNorm(x[i]) == 1.0 && 0.0 <= x[i][0]
    ensures IntrinsicToExtrinsicCoords(t, ExtrinsicToIntrinsicCoords(x)) == x
  {
    var z := ExtrinsicToIntrinsicCoords(x);
    var y := IntrinsicToExtrinsicCoords(t, z);
    forall i | 0 <= i < |x|
      ensures y[i] == x[i]
    {
      assert z[i] == x[i][1..];
      ExtrinsicRowOfTail(t, x[i]);
    }
  }

  lemma {:induction false} ExtrinsicRowOfTail(t: Transcendentals, y: Vector)
    requires Lawful(t)
    requires 1 <= |y| && SquaredNorm(y) == 1.0 && 0.0 <= y[0]
    ensures ExtrinsicRow(t, y[1..]) == y
  {
    var a := y[0];
    var z := y[1..];
    assert y == [a] + z;
    assert FirstCoordinate(t, z) == a by {
      assert ([a] + z)[1..] == z;
      SquaredNormHead([a] + z);
      FirstCoordinateOfUnitTail(t, a, z);
    }
  }

  lemma {:induction false} FirstCoordinateOfUnitTail(t: Transcendentals, a: real, z: Vector)
    requires Lawful(t)
    requires 0.0 <= a && a * a + SquaredNorm(z) == 1.0
    ensures FirstCoordinate(t, z) == a
  {
    NormSquared(t, z);
    SqrtOfSquare(t, a, OneMinusSquare(Norm(t, z)));
  }
}
