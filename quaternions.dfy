/** The quaternion algebra of the rotation conversions (base.py): the Hamilton
    product, the inverse of a versor, sign standardisation, their composition,
    `_copysign`, and `quaternion_apply`. One quaternion stands for one batch
    element of a `(..., 4)` array, real part first. */
module Quaternions {
  import opened PyErrors
  import opened Backend
  import opened LinearAlgebra

  /** `w + x i + y j + z k`, stored as `(w, x, y, z)`. */
  datatype Quat = Quat(w: real, x: real, y: real, z: real)

  /** The identity rotation `(1, 0, 0, 0)`. */
  const One: Quat := Quat(1.0, 0.0, 0.0, 0.0)

  function Neg(q: Quat): Quat
  {
    Quat(-q.w, -q.x, -q.y, -q.z)
  }

  function Scale(c: real, q: Quat): Quat
  {
    Quat(c * q.w, c * q.x, c * q.y, c * q.z)
  }

  /** `(q * q).sum(-1)` */
  function NormSq(q: Quat): real
  {
    q.w * q.w + q.x * q.x + q.y * q.y + q.z * q.z
  }

  /** The quaternion with real part 0 and vector part `p`. */
  function Pure(p: Vec3): Quat
  {
    Quat(0.0, p.x, p.y, p.z)
  }

  /** The vector part `q[..., 1:]`. */
  function VectorPart(q: Quat): Vec3
  {
    Vec3(q.x, q.y, q.z)
  }

  /** `quaternion_raw_multiply`: the Hamilton product `a b`. */
  function RawMultiply(a: Quat, b: Quat): Quat
  {
    Quat(a.w * b.w - a.x * b.x - a.y * b.y - a.z * b.z,
         a.w * b.x + a.x * b.w + a.y * b.z - a.z * b.y,
         a.w * b.y - a.x * b.z + a.y * b.w + a.z * b.x,
         a.w * b.z + a.x * b.y - a.y * b.x + a.z * b.w)
  }

  /** `quaternion_invert`: the conjugate, which is the inverse of a versor. */
  function Invert(q: Quat): Quat
  {
    Quat(q.w, -q.x, -q.y, -q.z)
  }

  /** `standardize_quaternion`: `q` or `-q`, whichever has a non-negative
      real part (`q` itself when the real part is 0). */
  function Standardize(q: Quat): (r: Quat)
    ensures r == q || r == Neg(q)
    ensures r.w >= 0.0
    ensures q.w >= 0.0 ==> r == q
  {
    if q.w < 0.0 then Neg(q) else q
  }

  /** `quaternion_multiply`: the standardized Hamilton product. */
  function Multiply(a: Quat, b: Quat): (r: Quat)
    ensures r == RawMultiply(a, b) || r == Neg(RawMultiply(a, b))
    ensures r.w >= 0.0
  {
    Standardize(RawMultiply(a, b))
  }

  /** `_copysign`: the magnitude of `a` with the sign of `b`; a zero `a`
      stays zero whatever the sign of `b`. */
  function Copysign(a: real, b: real): (r: real)
    ensures Abs(r) == Abs(a)
    ensures a != 0.0 ==> (r < 0.0 <==> b < 0.0)
    ensures a == 0.0 ==> r == 0.0
  {
    if (a < 0.0) != (b < 0.0) then -a else a
  }

  lemma RawMultiplyIdentity(q: Quat)
    ensures RawMultiply(One, q) == q && RawMultiply(q, One) == q
  {
  }

  /** The Hamilton product is associative, as a polynomial identity over the
      components. */
  lemma HamiltonAssociative(a0: real, a1: real, a2: real, a3: real, b0: real, b1: real, b2: real, b3: real, c0: real, c1: real, c2: real, c3: real)
    ensures (a0 * b0 - a1 * b1 - a2 * b2 - a3 * b3) * c0 - (a0 * b1 + a1 * b0 + a2 * b3 - a3 * b2) * c1 - (a0 * b2 - a1 * b3 + a2 * b0 + a3 * b1) * c2 - (a0 * b3 + a1 * b2 - a2 * b1 + a3 * b0) * c3
         == a0 * (b0 * c0 - b1 * c1 - b2 * c2 - b3 * c3) - a1 * (b0 * c1 + b1 * c0 + b2 * c3 - b3 * c2) - a2 * (b0 * c2 - b1 * c3 + b2 * c0 + b3 * c1) - a3 * (b0 * c3 + b1 * c2 - b2 * c1 + b3 * c0)
    ensures (a0 * b0 - a1 * b1 - a2 * b2 - a3 * b3) * c1 + (a0 * b1 + a1 * b0 + a2 * b3 - a3 * b2) * c0 + (a0 * b2 - a1 * b3 + a2 * b0 + a3 * b1) * c3 - (a0 * b3 + a1 * b2 - a2 * b1 + a3 * b0) * c2
         == a0 * (b0 * c1 + b1 * c0 + b2 * c3 - b3 * c2) + a1 * (b0 * c0 - b1 * c1 - b2 * c2 - b3 * c3) + a2 * (b0 * c3 + b1 * c2 - b2 * c1 + b3 * c0) - a3 * (b0 * c2 - b1 * c3 + b2 * c0 + b3 * c1)
    ensures (a0 * b0 - a1 * b1 - a2 * b2 - a3 * b3) * c2 - (a0 * b1 + a1 * b0 + a2 * b3 - a3 * b2) * c3 + (a0 * b2 - a1 * b3 + a2 * b0 + a3 * b1) * c0 + (a0 * b3 + a1 * b2 - a2 * b1 + a3 * b0) * c1
         == a0 * (b0 * c2 - b1 * c3 + b2 * c0 + b3 * c1) - a1 * (b0 * c3 + b1 * c2 - b2 * c1 + b3 * c0) + a2 * (b0 * c0 - b1 * c1 - b2 * c2 - b3 * c3) + a3 * (b0 * c1 + b1 * c0 + b2 * c3 - b3 * c2)
    ensures (a0 * b0 - a1 * b1 - a2 * b2 - a3 * b3) * c3 + (a0 * b1 + a1 * b0 + a2 * b3 - a3 * b2) * c2 - (a0 * b2 - a1 * b3 + a2 * b0 + a3 * b1) * c1 + (a0 * b3 + a1 * b2 - a2 * b1 + a3 * b0) * c0
         == a0 * (b0 * c3 + b1 * c2 - b2 * c1 + b3 * c0) + a1 * (b0 * c2 - b1 * c3 + b2 * c0 + b3 * c1) - a2 * (b0 * c1 + b1 * c0 + b2 * c3 - b3 * c2) + a3 * (b0 * c0 - b1 * c1 - b2 * c2 - b3 * c3)
  {
  }

  // `(a b) c` and `a (b c)`, component by component.

  lemma ProductLeftExpandedW(a: Quat, b: Quat, c: Quat)
    ensures RawMultiply(RawMultiply(a, b), c).w
         == (a.w * b.w - a.x * b.x - a.y * b.y - a.z * b.z) * c.w - (a.w * b.x + a.x * b.w + a.y * b.z - a.z * b.y) * c.x - (a.w * b.y - a.x * b.z + a.y * b.w + a.z * b.x) * c.y - (a.w * b.z + a.x * b.y - a.y * b.x + a.z * b.w) * c.z
  {
  }

  lemma ProductRightExpandedW(a: Quat, b: Quat, c: Quat)
    ensures RawMultiply(a, RawMultiply(b, c)).w
         == a.w * (b.w * c.w - b.x * c.x - b.y * c.y - b.z * c.z) - a.x * (b.w * c.x + b.x * c.w + b.y * c.z - b.z * c.y) - a.y * (b.w * c.y - b.x * c.z + b.y * c.w + b.z * c.x) - a.z * (b.w * c.z + b.x * c.y - b.y * c.x + b.z * c.w)
  {
  }

  lemma ProductLeftExpandedX(a: Quat, b: Quat, c: Quat)
    ensures RawMultiply(RawMultiply(a, b), c).x
         == (a.w * b.w - a.x * b.x - a.y * b.y - a.z * b.z) * c.x + (a.w * b.x + a.x * b.w + a.y * b.z - a.z * b.y) * c.w + (a.w * b.y - a.x * b.z + a.y * b.w + a.z * b.x) * c.z - (a.w * b.z + a.x * b.y - a.y * b.x + a.z * b.w) * c.y
  {
  }

  lemma ProductRightExpandedX(a: Quat, b: Quat, c: Quat)
    ensures RawMultiply(a, RawMultiply(b, c)).x
         == a.w * (b.w * c.x + b.x * c.w + b.y * c.z - b.z * c.y) + a.x * (b.w * c.w - b.x * c.x - b.y * c.y - b.z * c.z) + a.y * (b.w * c.z + b.x * c.y - b.y * c.x + b.z * c.w) - a.z * (b.w * c.y - b.x * c.z + b.y * c.w + b.z * c.x)
  {
  }

  lemma ProductLeftExpandedY(a: Quat, b: Quat, c: Quat)
    ensures RawMultiply(RawMultiply(a, b), c).y
         == (a.w * b.w - a.x * b.x - a.y * b.y - a.z * b.z) * c.y - (a.w * b.x + a.x * b.w + a.y * b.z - a.z * b.y) * c.z + (a.w * b.y - a.x * b.z + a.y * b.w + a.z * b.x) * c.w + (a.w * b.z + a.x * b.y - a.y * b.x + a.z * b.w) * c.x
  {
  }

  lemma ProductRightExpandedY(a: Quat, b: Quat, c: Quat)
    ensures RawMultiply(a, RawMultiply(b, c)).y
         == a.w * (b.w * c.y - b.x * c.z + b.y * c.w + b.z * c.x) - a.x * (b.w * c.z + b.x * c.y - b.y * c.x + b.z * c.w) + a.y * (b.w * c.w - b.x * c.x - b.y * c.y - b.z * c.z) + a.z * (b.w * c.x + b.x * c.w + b.y * c.z - b.z * c.y)
  {
  }

  lemma ProductLeftExpandedZ(a: Quat, b: Quat, c: Quat)
    ensures RawMultiply(RawMultiply(a, b), c).z
         == (a.w * b.w - a.x * b.x - a.y * b.y - a.z * b.z) * c.z + (a.w * b.x + a.x * b.w + a.y * b.z - a.z * b.y) * c.y - (a.w * b.y - a.x * b.z + a.y * b.w + a.z * b.x) * c.x + (a.w * b.z + a.x * b.y - a.y * b.x + a.z * b.w) * c.w
  {
  }

  lemma ProductRightExpandedZ(a: Quat, b: Quat, c: Quat)
    ensures RawMultiply(a, RawMultiply(b, c)).z
         == a.w * (b.w * c.z + b.x * c.y - b.y * c.x + b.z * c.w) + a.x * (b.w * c.y - b.x * c.z + b.y * c.w + b.z * c.x) - a.y * (b.w * c.x + b.x * c.w + b.y * c.z - b.z * c.y) + a.z * (b.w * c.w - b.x * c.x - b.y * c.y - b.z * c.z)
  {
  }

  lemma {:induction false} RawMultiplyAssociative(a: Quat, b: Quat, c: Quat)
    ensures RawMultiply(RawMultiply(a, b), c) == RawMultiply(a, RawMultiply(b, c))
  {
    ProductLeftExpandedW(a, b, c);
    ProductRightExpandedW(a, b, c);
    ProductLeftExpandedX(a, b, c);
    ProductRightExpandedX(a, b, c);
    ProductLeftExpandedY(a, b, c);
    ProductRightExpandedY(a, b, c);
    ProductLeftExpandedZ(a, b, c);
    ProductRightExpandedZ(a, b, c);
    HamiltonAssociative(a.w, a.x, a.y, a.z, b.w, b.x, b.y, b.z, c.w, c.x, c.y, c.z);
  }

  /** Euler's four-square identity. */
  lemma FourSquares(a0: real, a1: real, a2: real, a3: real, b0: real, b1: real, b2: real, b3: real)
    ensures (a0 * b0 - a1 * b1 - a2 * b2 - a3 * b3) * (a0 * b0 - a1 * b1 - a2 * b2 - a3 * b3)
       + (a0 * b1 + a1 * b0 + a2 * b3 - a3 * b2) * (a0 * b1 + a1 * b0 + a2 * b3 - a3 * b2)
       + (a0 * b2 - a1 * b3 + a2 * b0 + a3 * b1) * (a0 * b2 - a1 * b3 + a2 * b0 + a3 * b1)
       + (a0 * b3 + a1 * b2 - a2 * b1 + a3 * b0) * (a0 * b3 + a1 * b2 - a2 * b1 + a3 * b0)
         == (a0 * a0 + a1 * a1 + a2 * a2 + a3 * a3) * (b0 * b0 + b1 * b1 + b2 * b2 + b3 * b3)
  {
  }

  lemma NormSqOfProductExpanded(a: Quat, b: Quat)
    ensures NormSq(RawMultiply(a, b))
         == (a.w * b.w - a.x * b.x - a.y * b.y - a.z * b.z) * (a.w * b.w - a.x * b.x - a.y * b.y - a.z * b.z)
       + (a.w * b.x + a.x * b.w + a.y * b.z - a.z * b.y) * (a.w * b.x + a.x * b.w + a.y * b.z - a.z * b.y)
       + (a.w * b.y - a.x * b.z + a.y * b.w + a.z * b.x) * (a.w * b.y - a.x * b.z + a.y * b.w + a.z * b.x)
       + (a.w * b.z + a.x * b.y - a.y * b.x + a.z * b.w) * (a.w * b.z + a.x * b.y - a.y * b.x + a.z * b.w)
  {
  }

  lemma NormSqProductExpanded(a: Quat, b: Quat)
    ensures NormSq(a) * NormSq(b)
         == (a.w * a.w + a.x * a.x + a.y * a.y + a.z * a.z) * (b.w * b.w + b.x * b.x + b.y * b.y + b.z * b.z)
  {
  }

  /** `|a b|² = |a|² |b|²` */
  lemma {:induction false} NormSqMultiplicative(a: Quat, b: Quat)
    ensures NormSq(RawMultiply(a, b)) == NormSq(a) * NormSq(b)
  {
    NormSqOfProductExpanded(a, b);
    NormSqProductExpanded(a, b);
    FourSquares(a.w, a.x, a.y, a.z, b.w, b.x, b.y, b.z);
  }

  lemma InvertInvolution(q: Quat)
    ensures Invert(Invert(q)) == q
  {
  }

  /** A quaternion times its inverse, on either side, is the real number
      `|q|²`. */
  lemma InvertProducts(q: Quat)
    ensures RawMultiply(q, Invert(q)) == Quat(NormSq(q), 0.0, 0.0, 0.0)
    ensures RawMultiply(Invert(q), q) == Quat(NormSq(q), 0.0, 0.0, 0.0)
  {
  }

  /** For a versor, `quaternion_invert` is the two-sided inverse. */
  lemma {:induction false} InvertOfVersor(q: Quat)
    requires NormSq(q) == 1.0
    ensures RawMultiply(q, Invert(q)) == One && RawMultiply(Invert(q), q) == One
  {
    InvertProducts(q);
  }

  /** Inverting a product reverses the order of its factors. */
  lemma {:induction false} InvertOfProduct(a: Quat, b: Quat)
    ensures Invert(RawMultiply(a, b)) == RawMultiply(Invert(b), Invert(a))
  {
    var ab := RawMultiply(a, b);
    assert Invert(ab) == Quat(ab.w, -ab.x, -ab.y, -ab.z);
    assert Invert(a) == Quat(a.w, -a.x, -a.y, -a.z);
    assert Invert(b) == Quat(b.w, -b.x, -b.y, -b.z);
  }

  lemma StandardizeIdempotent(q: Quat)
    ensures Standardize(Standardize(q)) == Standardize(q)
  {
  }

  /** `q` and `-q` stand for the same rotation and standardize alike. */
  lemma StandardizeOfNeg(q: Quat)
    requires q.w != 0.0
    ensures Standardize(Neg(q)) == Standardize(q)
  {
  }

  lemma StandardizeNormSq(q: Quat)
    ensures NormSq(Standardize(q)) == NormSq(q)
  {
  }

  /** The product of two versors is a versor. */
  lemma {:induction false} MultiplyVersors(a: Quat, b: Quat)
    requires NormSq(a) == 1.0 && NormSq(b) == 1.0
    ensures NormSq(Multiply(a, b)) == 1.0
  {
    NormSqMultiplicative(a, b);
    StandardizeNormSq(RawMultiply(a, b));
  }

  /** Flipping the sign of either factor does not change `quaternion_multiply`
      unless the product has real part 0. */
  lemma {:induction false} MultiplySignInvariant(a: Quat, b: Quat)
    requires RawMultiply(a, b).w != 0.0
    ensures Multiply(Neg(a), b) == Multiply(a, b) && Multiply(a, Neg(b)) == Multiply(a, b)
  {
    RawMultiplyOfNeg(a, b);
    StandardizeOfNeg(RawMultiply(a, b));
  }

  /** Negating either factor negates the raw product. */
  lemma {:induction false} RawMultiplyOfNeg(a: Quat, b: Quat)
    ensures RawMultiply(Neg(a), b) == Neg(RawMultiply(a, b))
    ensures RawMultiply(a, Neg(b)) == Neg(RawMultiply(a, b))
  {
    NegTimes(a.w, b.w);
    NegTimes(a.w, b.x);
    NegTimes(a.w, b.y);
    NegTimes(a.w, b.z);
    NegTimes(a.x, b.w);
    NegTimes(a.x, b.x);
    NegTimes(a.x, b.y);
    NegTimes(a.x, b.z);
    NegTimes(a.y, b.w);
    NegTimes(a.y, b.x);
    NegTimes(a.y, b.y);
    NegTimes(a.y, b.z);
    NegTimes(a.z, b.w);
    NegTimes(a.z, b.x);
    NegTimes(a.z, b.y);
    NegTimes(a.z, b.z);
  }

  lemma NegTimes(u: real, v: real)
    ensures (-u) * v == -(u * v) && u * (-v) == -(u * v)
  {
  }

  /** The rotated point `q p q⁻¹` as the source computes it, as a quaternion. */
  function Conjugated(q: Quat, p: Vec3): Quat
  {
    RawMultiply(RawMultiply(q, Pure(p)), Invert(q))
  }

  /** `q p q⁻¹` has real part 0 for every `q`, so dropping it loses nothing. */
  lemma ConjugatedIsPure(q: Quat, p: Vec3)
    ensures Conjugated(q, p).w == 0.0
  {
  }

  /** A versor moves a point without changing its length. */
  lemma {:induction false} ConjugatedPreservesNorm(q: Quat, p: Vec3)
    requires NormSq(q) == 1.0
    ensures Dot(VectorPart(Conjugated(q, p)), VectorPart(Conjugated(q, p))) == Dot(p, p)
  {
    NormSqMultiplicative(q, Pure(p));
    NormSqMultiplicative(RawMultiply(q, Pure(p)), Invert(q));
    ConjugatedIsPure(q, p);
  }

  /** The shape check of `quaternion_apply`: `point.shape[-1]` raises on a
      0-d point, and a last dimension other than 3 is refused. */
  function CheckPointShape(pointShape: seq<nat>): (r: Result<()>)
    ensures r.Ok? <==> |pointShape| > 0 && pointShape[|pointShape| - 1] == 3
    ensures r == Err(IndexError) <==> |pointShape| == 0
    ensures |pointShape| > 0 && pointShape[|pointShape| - 1] != 3 ==> r == Err(ValueError("Points are not in 3D."))
  {
    if |pointShape| == 0 then Err(IndexError)
    else if pointShape[|pointShape| - 1] != 3 then Err(ValueError("Points are not in 3D."))
    else Ok(())
  }

  /** `quaternion_apply` as written: the outer `quaternion_raw_multiply` call
      passes the product and the inverse as `backend` and `a` and leaves
      out `b`, so every point that passes the shape check raises TypeError. */
  function QuaternionApplyAsWritten(q: Quat, pointShape: seq<nat>, p: Vec3): (r: Result<Vec3>)
    ensures r.Err?
    ensures CheckPointShape(pointShape).Err? ==> r == Err(CheckPointShape(pointShape).error)
    ensures CheckPointShape(pointShape).Ok? ==> r == Err(TypeError)
  {
    match CheckPointShape(pointShape)
    case Err(e) => Err(e)
    case Ok(_) => Err(TypeError)
  }

  /** `quaternion_apply` as intended: the vector part of `q p q⁻¹`. */
  function QuaternionApply(q: Quat, pointShape: seq<nat>, p: Vec3): (r: Result<Vec3>)
    ensures r.Ok? <==> CheckPointShape(pointShape).Ok?
    ensures r.Ok? ==> Pure(r.value) == Conjugated(q, p)
    ensures r.Err? ==> r == Err(CheckPointShape(pointShape).error)
  {
    ConjugatedIsPure(q, p);
    match CheckPointShape(pointShape)
    case Err(e) => Err(e)
    case Ok(_) => Ok(VectorPart(Conjugated(q, p)))
  }

  /** The two versions differ on every well-shaped point: the code as written
      raises where the intended one returns the rotated point. */
  lemma QuaternionApplyDiscrepancy(q: Quat, p: Vec3)
    ensures QuaternionApplyAsWritten(q, [3], p) == Err(TypeError)
    ensures QuaternionApply(q, [3], p) == Ok(VectorPart(Conjugated(q, p)))
  {
  }
}
