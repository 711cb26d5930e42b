/** The part of the compute backend the rotation conversions call: the
    transcendental functions are opaque values of the backend, and each proof
    states as a precondition the one property of them it relies on. */
module Backend {

  /** Elementwise `sqrt`, `sin`, `cos`, `asin`, `acos` and `atan2` of a
      backend, applied to one batch element. */
  datatype ComputeBackend = ComputeBackend(
    sqrt: real -> real,
    sin: real -> real,
    cos: real -> real,
    asin: real -> real,
    acos: real -> real,
    atan2: (real, real) -> real)

  /** `sqrt` returns the non-negative square root of a non-negative input. */
  ghost predicate SqrtSound(b: ComputeBackend)
  {
    forall v: real :: v >= 0.0 ==> b.sqrt(v) >= 0.0 && b.sqrt(v) * b.sqrt(v) == v
  }

  /** `sin(t)² + cos(t)² = 1` at the angle `t`. */
  ghost predicate Pythagorean(b: ComputeBackend, t: real)
  {
    b.sin(t) * b.sin(t) + b.cos(t) * b.cos(t) == 1.0
  }

  /** `maximum(a, b)` */
  function Max(a: real, b: real): (r: real)
    ensures r >= a && r >= b && (r == a || r == b)
  {
    if a >= b then a else b
  }

  /** `clip(v, lo, hi)`: `v` limited to the interval `[lo, hi]`. */
  function Clip(v: real, lo: real, hi: real): (r: real)
    requires lo <= hi
    ensures lo <= r <= hi
    ensures lo <= v <= hi ==> r == v
    ensures v < lo ==> r == lo
    ensures hi < v ==> r == hi
  {
    if v < lo then lo else if hi < v then hi else v
  }

  /** The absolute value. */
  function Abs(v: real): (r: real)
    ensures r >= 0.0 && (r == v || r == -v)
  {
    if v < 0.0 then -v else v
  }

  lemma ZeroProduct(a: real, b: real)
    requires a * b == 0.0
    ensures a == 0.0 || b == 0.0
  {
  }

  lemma DifferenceOfSquares(r: real, t: real)
    ensures (r - t) * (r + t) == r * r - t * t
  {
  }

  /** Two non-negative numbers with the same square are equal. */
  lemma {:induction false} SquareInjective(r: real, t: real)
    requires r >= 0.0 && t >= 0.0 && r * r == t * t
    ensures r == t
  {
    DifferenceOfSquares(r, t);
    ZeroProduct(r - t, r + t);
  }

  /** A non-negative number whose square is `4 v²` is `2 |v|`. */
  lemma {:induction false} RootOfSquare(r: real, v: real)
    requires r >= 0.0 && r * r == 4.0 * (v * v)
    ensures r == 2.0 * Abs(v)
  {
    var t := 2.0 * Abs(v);
    assert t * t == 4.0 * (v * v);
    SquareInjective(r, t);
  }
}
