/** Real-number stand-ins for the floating-point primitives the geometry code uses.

    Everything is modelled over `real`: rounding is not. The transcendental
    functions NumPy evaluates elementwise are uninterpreted; a caller supplies
    them in a `Transcendentals` record, and `Lawful` lists the only facts about
    them that any proof in this project uses. */
module Numerics {

  /** The elementwise functions of the array library, supplied by the caller. */
  datatype Transcendentals = Transcendentals(
    sqrt: real -> real,
    sin: real -> real,
    cos: real -> real,
    tan: real -> real,
    arccos: real -> real,
    log: real -> real)

  // Each primitive is applied through a function of its own, so that every
  // proof speaks of one and the same term for an application.
  function Sqrt(t: Transcendentals, x: real): real { t.sqrt(x) }
  function Sin(t: Transcendentals, x: real): real { t.sin(x) }
  function Cos(t: Transcendentals, x: real): real { t.cos(x) }
  function Tan(t: Transcendentals, x: real): real { t.tan(x) }
  function Arccos(t: Transcendentals, x: real): real { t.arccos(x) }
  function Log(t: Transcendentals, x: real): real { t.log(x) }

  /** The identities of real analysis the proofs rely on, and nothing more. */
  ghost predicate Lawful(t: Transcendentals) {
    && (forall x :: Sin(t, x) * Sin(t, x) + Cos(t, x) * Cos(t, x) == 1.0)
    && (forall x :: 0.0 <= x ==> 0.0 <= Sqrt(t, x) && Sqrt(t, x) * Sqrt(t, x) == x)
    && Arccos(t, 1.0) == 0.0
    && (forall c :: -1.0 <= c <= 1.0 ==> 0.0 <= Arccos(t, c) && Cos(t, Arccos(t, c)) == c)
    && (forall x :: Cos(t, x) != 0.0 ==> Tan(t, x) * Cos(t, x) == Sin(t, x))
  }

  /** Default tolerances of `numpy.isclose`. */
  const ABS_TOL: real := 1e-8
  const REL_TOL: real := 1e-5

  function Abs(x: real): (r: real)
    ensures 0.0 <= r && (r == x || r == -x)
  {
    if x < 0.0 then -x else x
  }

  function Max(m: nat, n: nat): (r: nat)
    ensures m <= r && n <= r && (r == m || r == n)
  {
    if m < n then n else m
  }

  /** `numpy.isclose(a, b)` with its default tolerances (not symmetric in a and b). */
  predicate IsClose(a: real, b: real) {
    Abs(a - b) <= ABS_TOL + REL_TOL * Abs(b)
  }

  /** `numpy.clip(x, lo, hi)`. */
  function Clip(x: real, lo: real, hi: real): (r: real)
    requires lo <= hi
    ensures lo <= r <= hi
    ensures lo <= x <= hi ==> r == x
    ensures x < lo ==> r == lo
    ensures hi < x ==> r == hi
  {
    if x < lo then lo else if hi < x then hi else x
  }

  /** Floating-point division. Where the divisor is exactly zero IEEE arithmetic
      yields an infinity or NaN, which `real` lacks; the model yields 0 there
      and no property of this project depends on that value. */
  function Quotient(a: real, b: real): (r: real)
    ensures b != 0.0 ==> r * b == a
    ensures a == 0.0 ==> r == 0.0
  {
    if b == 0.0 then 0.0 else a / b
  }

  /** The principal square root of a square is the non-negative base. */
  lemma SqrtOfSquare(t: Transcendentals, x: real, y: real)
    requires Lawful(t)
    requires 0.0 <= x && y == x * x
    ensures Sqrt(t, y) == x
  {
    assert 0.0 <= y;
    SquareUnique(Sqrt(t, y), x);
  }

  /** Two non-negative reals with equal squares are equal. */
  lemma SquareUnique(s: real, x: real)
    requires 0.0 <= s && 0.0 <= x && s * s == x * x
    ensures s == x
  {
    assert (s - x) * (s + x) == s * s - x * x;
    if s + x != 0.0 {
      assert s - x == ((s - x) * (s + x)) / (s + x);
    }
  }

  lemma SqrtZero(t: Transcendentals)
    requires Lawful(t)
    ensures Sqrt(t, 0.0) == 0.0
  {
    SqrtOfSquare(t, 0.0, 0.0);
  }

  lemma SqrtOne(t: Transcendentals)
    requires Lawful(t)
    ensures Sqrt(t, 1.0) == 1.0
  {
    SqrtOfSquare(t, 1.0, 1.0);
  }
}
