/** `matrix_to_quaternion` and `_sqrt_positive_part` (base.py): the quaternion
    of a rotation matrix, picked from four candidates by the best-conditioned
    denominator, and the proof that it inverts `quaternion_to_matrix`. */
module MatrixToQuaternion {
  import opened PyErrors
  import opened Backend
  import opened LinearAlgebra
  import opened Quaternions
  import opened QuaternionMatrix

  /** The shape check `shape[-1] != 3 or shape[-2] != 3`: a shape too short
      to index raises IndexError before the comparison can be made. */
  function CheckMatrixShape(shape: seq<nat>): (r: Result<()>)
    ensures r.Ok? <==> |shape| >= 2 && shape[|shape| - 1] == 3 && shape[|shape| - 2] == 3
    ensures r == Err(IndexError) <==> |shape| == 0 || (|shape| == 1 && shape[0] == 3)
    ensures r.Err? && r != Err(IndexError) ==> r == Err(ValueError("Invalid rotation matrix shape."))
  {
    if |shape| == 0 then Err(IndexError)
    else if shape[|shape| - 1] != 3 then Err(ValueError("Invalid rotation matrix shape."))
    else if |shape| == 1 then Err(IndexError)
    else if shape[|shape| - 2] != 3 then Err(ValueError("Invalid rotation matrix shape."))
    else Ok(())
  }

  /** `_sqrt_positive_part` as written: the fallback of `where` is `ret`,
      the very name the statement assigns, so Python raises
      UnboundLocalError before anything is computed. */
  function SqrtPositivePartAsWritten(b: ComputeBackend, v: real): Result<real>
  {
    Err(UnboundLocalError)
  }

  /** `_sqrt_positive_part` as its documentation states it:
      `sqrt(max(0, x))`, which is `sqrt(x)` where `x > 0` and `0` elsewhere. */
  function SqrtPositivePart(b: ComputeBackend, v: real): (r: real)
    ensures v <= 0.0 ==> r == 0.0
  {
    if v > 0.0 then b.sqrt(v) else 0.0
  }

  /** With a sound `sqrt`, the result is the square root of `max(0, x)`. */
  lemma SqrtPositivePartIsRoot(b: ComputeBackend, v: real)
    requires SqrtSound(b)
    ensures SqrtPositivePart(b, v) >= 0.0
    ensures SqrtPositivePart(b, v) * SqrtPositivePart(b, v) == Max(v, 0.0)
  {
  }

  /** `q_abs`: the square roots of the four combinations of the diagonal. */
  function QAbs(b: ComputeBackend, m: Mat3): seq<real>
  {
    [SqrtPositivePart(b, 1.0 + m.r0.x + m.r1.y + m.r2.z),
     SqrtPositivePart(b, 1.0 + m.r0.x - m.r1.y - m.r2.z),
     SqrtPositivePart(b, 1.0 - m.r0.x + m.r1.y - m.r2.z),
     SqrtPositivePart(b, 1.0 - m.r0.x - m.r1.y + m.r2.z)]
  }

  /** `quat_by_rijk`: row `k` is the quaternion multiplied by its `k`-th
      component (times 4, for a rotation matrix). */
  function QuatByRijk(b: ComputeBackend, m: Mat3): seq<Quat>
  {
    var a := QAbs(b, m);
    [Quat(a[0] * a[0], m.r2.y - m.r1.z, m.r0.z - m.r2.x, m.r1.x - m.r0.y),
     Quat(m.r2.y - m.r1.z, a[1] * a[1], m.r1.x + m.r0.y, m.r0.z + m.r2.x),
     Quat(m.r0.z - m.r2.x, m.r1.x + m.r0.y, a[2] * a[2], m.r1.z + m.r2.y),
     Quat(m.r1.x - m.r0.y, m.r2.x + m.r0.z, m.r2.y + m.r1.z, a[3] * a[3])]
  }

  /** Componentwise division of a quaternion by a scalar. */
  function DivideQuat(q: Quat, d: real): Quat
    requires d != 0.0
  {
    Quat(q.w / d, q.x / d, q.y / d, q.z / d)
  }

  /** `quat_candidates[k]`: row `k` divided by `2 max(q_abs[k], 0.1)`. */
  function Candidate(b: ComputeBackend, m: Mat3, k: nat): Quat
    requires k < 4
  {
    DivideQuat(QuatByRijk(b, m)[k], 2.0 * Max(QAbs(b, m)[k], 0.1))
  }

  /** `argmax` along an axis: the first index of a largest element. */
  function FirstArgmax(s: seq<real>): (r: nat)
    requires |s| > 0
    ensures r < |s|
    ensures forall i :: 0 <= i < |s| ==> s[i] <= s[r]
    ensures forall i :: 0 <= i < r ==> s[i] < s[r]
  {
    if |s| == 1 then 0
    else
      var k := FirstArgmax(s[..|s| - 1]);
      if s[k] < s[|s| - 1] then |s| - 1 else k
  }

  /** `matrix_to_quaternion` for one matrix of a batch of shape `shape`,
      with `_sqrt_positive_part` computing what its documentation says. */
  function MatrixToQuaternion(b: ComputeBackend, shape: seq<nat>, m: Mat3): (r: Result<Quat>)
    ensures r.Ok? <==> CheckMatrixShape(shape).Ok?
    ensures r.Err? ==> r == Err(CheckMatrixShape(shape).error)
    ensures r.Ok? ==> r.value.w >= 0.0
  {
    match CheckMatrixShape(shape)
    case Err(e) => Err(e)
    case Ok(_) => Ok(Standardize(Candidate(b, m, FirstArgmax(QAbs(b, m)))))
  }

  /** `matrix_to_quaternion` as written: every well-shaped input reaches
      `_sqrt_positive_part`, which raises. */
  function MatrixToQuaternionAsWritten(b: ComputeBackend, shape: seq<nat>, m: Mat3): (r: Result<Quat>)
    ensures r.Err?
    ensures CheckMatrixShape(shape).Ok? ==> r == Err(UnboundLocalError)
  {
    match CheckMatrixShape(shape)
    case Err(e) => Err(e)
    case Ok(_) =>
      match SqrtPositivePartAsWritten(b, 1.0 + m.r0.x + m.r1.y + m.r2.z)
      case Err(e) => Err(e)
      case Ok(_) => MatrixToQuaternion(b, shape, m)
  }

  /** The as-written function never returns a quaternion, where the corrected
      one returns one for every well-shaped input. */
  lemma MatrixToQuaternionDiscrepancy(b: ComputeBackend, m: Mat3)
    ensures MatrixToQuaternionAsWritten(b, [3, 3], m) == Err(UnboundLocalError)
    ensures MatrixToQuaternion(b, [3, 3], m).Ok?
  {
  }

  // The round trip: for a unit quaternion q, matrix_to_quaternion recovers
  // ±q from quaternion_to_matrix(q).

  /** Component `k` of a quaternion, real part first. */
  function Component(q: Quat, k: nat): real
    requires k < 4
  {
    if k == 0 then q.w else if k == 1 then q.x else if k == 2 then q.y else q.z
  }

  /** For a unit quaternion `two_s` is 2. */
  lemma {:induction false} UnitMatrix(q: Quat)
    requires NormSq(q) == 1.0
    ensures QuaternionToMatrix(q) == ScaledMatrix(q.w, q.x, q.y, q.z, 2.0)
  {
    assert TwoS(q) == 2.0;
  }

  /** For a unit quaternion each combination of the diagonal is `4 q_k²`. */
  lemma DiagonalCombinations(w: real, x: real, y: real, z: real)
    requires w * w + x * x + y * y + z * z == 1.0
    ensures 1.0 + ScaledMatrix(w, x, y, z, 2.0).r0.x + ScaledMatrix(w, x, y, z, 2.0).r1.y + ScaledMatrix(w, x, y, z, 2.0).r2.z == 4.0 * (w * w)
    ensures 1.0 + ScaledMatrix(w, x, y, z, 2.0).r0.x - ScaledMatrix(w, x, y, z, 2.0).r1.y - ScaledMatrix(w, x, y, z, 2.0).r2.z == 4.0 * (x * x)
    ensures 1.0 - ScaledMatrix(w, x, y, z, 2.0).r0.x + ScaledMatrix(w, x, y, z, 2.0).r1.y - ScaledMatrix(w, x, y, z, 2.0).r2.z == 4.0 * (y * y)
    ensures 1.0 - ScaledMatrix(w, x, y, z, 2.0).r0.x - ScaledMatrix(w, x, y, z, 2.0).r1.y + ScaledMatrix(w, x, y, z, 2.0).r2.z == 4.0 * (z * z)
  {
  }

  lemma AbsSquare(v: real)
    ensures Abs(v) * Abs(v) == v * v
  {
  }

  /** `_sqrt_positive_part(4 v²) = 2 |v|`. */
  lemma {:induction false} SqrtPositivePartOfSquare(b: ComputeBackend, e: real, v: real)
    requires SqrtSound(b) && e == 4.0 * (v * v)
    ensures SqrtPositivePart(b, e) == 2.0 * Abs(v)
  {
    SqrtPositivePartIsRoot(b, e);
    RootOfSquare(SqrtPositivePart(b, e), v);
  }
  lemma {:induction false} QAbsOfSquares(b: ComputeBackend, m: Mat3, q: Quat)
    requires SqrtSound(b)
    requires 1.0 + m.r0.x + m.r1.y + m.r2.z == 4.0 * (q.w * q.w)
    requires 1.0 + m.r0.x - m.r1.y - m.r2.z == 4.0 * (q.x * q.x)
    requires 1.0 - m.r0.x + m.r1.y - m.r2.z == 4.0 * (q.y * q.y)
    requires 1.0 - m.r0.x - m.r1.y + m.r2.z == 4.0 * (q.z * q.z)
    ensures QAbs(b, m) == [2.0 * Abs(q.w), 2.0 * Abs(q.x), 2.0 * Abs(q.y), 2.0 * Abs(q.z)]
  {
    SqrtPositivePartOfSquare(b, 1.0 + m.r0.x + m.r1.y + m.r2.z, q.w);
    SqrtPositivePartOfSquare(b, 1.0 + m.r0.x - m.r1.y - m.r2.z, q.x);
    SqrtPositivePartOfSquare(b, 1.0 - m.r0.x + m.r1.y - m.r2.z, q.y);
    SqrtPositivePartOfSquare(b, 1.0 - m.r0.x - m.r1.y + m.r2.z, q.z);
  }

  lemma {:induction false} QAbsOfUnitMatrix(b: ComputeBackend, q: Quat)
    requires SqrtSound(b) && NormSq(q) == 1.0
    ensures QAbs(b, ScaledMatrix(q.w, q.x, q.y, q.z, 2.0)) == [2.0 * Abs(q.w), 2.0 * Abs(q.x), 2.0 * Abs(q.y), 2.0 * Abs(q.z)]
  {
    DiagonalCombinations(q.w, q.x, q.y, q.z);
    QAbsOfSquares(b, ScaledMatrix(q.w, q.x, q.y, q.z, 2.0), q);
  }

  /** For a unit quaternion, `q_abs` holds twice the magnitudes of its
      components. */
  lemma {:induction false} QAbsOfUnit(b: ComputeBackend, q: Quat)
    requires SqrtSound(b) && NormSq(q) == 1.0
    ensures QAbs(b, QuaternionToMatrix(q)) == [2.0 * Abs(q.w), 2.0 * Abs(q.x), 2.0 * Abs(q.y), 2.0 * Abs(q.z)]
  {
    UnitMatrix(q);
    QAbsOfUnitMatrix(b, q);
  }

  /** For a unit quaternion each sum or difference of a pair of opposite
      entries is `4 q_i q_j`. */
  lemma OffDiagonalCombinations(w: real, x: real, y: real, z: real)
    ensures ScaledMatrix(w, x, y, z, 2.0).r2.y - ScaledMatrix(w, x, y, z, 2.0).r1.z == 4.0 * (w * x)
    ensures ScaledMatrix(w, x, y, z, 2.0).r0.z - ScaledMatrix(w, x, y, z, 2.0).r2.x == 4.0 * (w * y)
    ensures ScaledMatrix(w, x, y, z, 2.0).r1.x - ScaledMatrix(w, x, y, z, 2.0).r0.y == 4.0 * (w * z)
    ensures ScaledMatrix(w, x, y, z, 2.0).r1.x + ScaledMatrix(w, x, y, z, 2.0).r0.y == 4.0 * (x * y)
    ensures ScaledMatrix(w, x, y, z, 2.0).r0.z + ScaledMatrix(w, x, y, z, 2.0).r2.x == 4.0 * (x * z)
    ensures ScaledMatrix(w, x, y, z, 2.0).r1.z + ScaledMatrix(w, x, y, z, 2.0).r2.y == 4.0 * (y * z)
  {
  }

  lemma SquareOfDouble(a: real, v: real)
    requires a == 2.0 * Abs(v)
    ensures a * a == 4.0 * (v * v)
  {
    AbsSquare(v);
  }

  lemma {:induction false} Row0OfProducts(b: ComputeBackend, m: Mat3, q: Quat)
    requires QAbs(b, m)[0] == 2.0 * Abs(q.w)
    requires m.r2.y - m.r1.z == 4.0 * (q.w * q.x)
    requires m.r0.z - m.r2.x == 4.0 * (q.w * q.y)
    requires m.r1.x - m.r0.y == 4.0 * (q.w * q.z)
    ensures QuatByRijk(b, m)[0] == Scale(4.0 * q.w, q)
  {
    SquareOfDouble(QAbs(b, m)[0], q.w);
  }

  lemma {:induction false} Row1OfProducts(b: ComputeBackend, m: Mat3, q: Quat)
    requires QAbs(b, m)[1] == 2.0 * Abs(q.x)
    requires m.r2.y - m.r1.z == 4.0 * (q.w * q.x)
    requires m.r1.x + m.r0.y == 4.0 * (q.x * q.y)
    requires m.r0.z + m.r2.x == 4.0 * (q.x * q.z)
    ensures QuatByRijk(b, m)[1] == Scale(4.0 * q.x, q)
  {
    SquareOfDouble(QAbs(b, m)[1], q.x);
  }

  lemma {:induction false} Row2OfProducts(b: ComputeBackend, m: Mat3, q: Quat)
    requires QAbs(b, m)[2] == 2.0 * Abs(q.y)
    requires m.r0.z - m.r2.x == 4.0 * (q.w * q.y)
    requires m.r1.x + m.r0.y == 4.0 * (q.x * q.y)
    requires m.r1.z + m.r2.y == 4.0 * (q.y * q.z)
    ensures QuatByRijk(b, m)[2] == Scale(4.0 * q.y, q)
  {
    SquareOfDouble(QAbs(b, m)[2], q.y);
  }

  lemma {:induction false} Row3OfProducts(b: ComputeBackend, m: Mat3, q: Quat)
    requires QAbs(b, m)[3] == 2.0 * Abs(q.z)
    requires m.r1.x - m.r0.y == 4.0 * (q.w * q.z)
    requires m.r2.x + m.r0.z == 4.0 * (q.x * q.z)
    requires m.r2.y + m.r1.z == 4.0 * (q.y * q.z)
    ensures QuatByRijk(b, m)[3] == Scale(4.0 * q.z, q)
  {
    SquareOfDouble(QAbs(b, m)[3], q.z);
  }

  /** Row `k` of `quat_by_rijk` is `4 q_k q` when `q_abs` and the sums and
      differences of opposite entries are those of a unit quaternion. */
  lemma {:induction false} RowsOfUnitMatrix(b: ComputeBackend, q: Quat)
    requires SqrtSound(b) && NormSq(q) == 1.0
    ensures QuatByRijk(b, ScaledMatrix(q.w, q.x, q.y, q.z, 2.0))
         == [Scale(4.0 * q.w, q), Scale(4.0 * q.x, q), Scale(4.0 * q.y, q), Scale(4.0 * q.z, q)]
  {
    var m := ScaledMatrix(q.w, q.x, q.y, q.z, 2.0);
    QAbsOfUnitMatrix(b, q);
    OffDiagonalCombinations(q.w, q.x, q.y, q.z);
    Row0OfProducts(b, m, q);
    Row1OfProducts(b, m, q);
    Row2OfProducts(b, m, q);
    Row3OfProducts(b, m, q);
  }

  /** For a unit quaternion, row `k` of `quat_by_rijk` is `4 q_k q`. */
  lemma {:induction false} RowsOfUnit(b: ComputeBackend, q: Quat)
    requires SqrtSound(b) && NormSq(q) == 1.0
    ensures QuatByRijk(b, QuaternionToMatrix(q))
         == [Scale(4.0 * q.w, q), Scale(4.0 * q.x, q), Scale(4.0 * q.y, q), Scale(4.0 * q.z, q)]
  {
    UnitMatrix(q);
    RowsOfUnitMatrix(b, q);
  }

  lemma NonnegProduct(a: real, c: real)
    requires a >= 0.0 && c >= 0.0
    ensures a * c >= 0.0
  {
  }

  /** `0 <= u <= t` gives `u² <= t²`. */
  lemma {:induction false} SquareMonotone(u: real, t: real)
    requires 0.0 <= u <= t
    ensures u * u <= t * t
  {
    DifferenceOfSquares(t, u);
    NonnegProduct(t - u, t + u);
  }

  /** The largest magnitude among the components of a unit quaternion is
      at least 1/2. */
  lemma {:induction false} LargestOfFour(w: real, x: real, y: real, z: real, t: real)
    requires w * w + x * x + y * y + z * z == 1.0
    requires Abs(w) <= t && Abs(x) <= t && Abs(y) <= t && Abs(z) <= t
    ensures t >= 0.5
  {
    SquareMonotone(Abs(w), t);
    SquareMonotone(Abs(x), t);
    SquareMonotone(Abs(y), t);
    SquareMonotone(Abs(z), t);
    AbsSquare(w);
    AbsSquare(x);
    AbsSquare(y);
    AbsSquare(z);
    QuarterBound(t);
  }

  /** `t >= 0` and `4 t² >= 1` give `t >= 1/2`. */
  lemma {:induction false} QuarterBound(t: real)
    requires t >= 0.0 && 4.0 * (t * t) >= 1.0
    ensures t >= 0.5
  {
    if t < 0.5 {
      SquareMonotone(t, 0.5);
      DifferenceOfSquares(0.5, t);
      ZeroProduct(0.5 - t, 0.5 + t);
    }
  }

  lemma {:induction false} DivExact(e: real, d: real, v: real)
    requires d != 0.0 && e == d * v
    ensures e / d == v
  {
  }

  /** `4 v q / (2 max(2 |v|, 0.1)) = sign(v) q` once `|v| >= 1/2`. */
  lemma {:induction false} DivideScaled(q: Quat, v: real)
    requires Abs(v) >= 0.5
    ensures DivideQuat(Scale(4.0 * v, q), 2.0 * Max(2.0 * Abs(v), 0.1)) == (if v >= 0.0 then q else Neg(q))
  {
    var d := 2.0 * Max(2.0 * Abs(v), 0.1);
    assert d == 4.0 * Abs(v);
    var p := if v >= 0.0 then q else Neg(q);
    assert 4.0 * v * q.w == d * p.w;
    assert 4.0 * v * q.x == d * p.x;
    assert 4.0 * v * q.y == d * p.y;
    assert 4.0 * v * q.z == d * p.z;
    DivExact(4.0 * v * q.w, d, p.w);
    DivExact(4.0 * v * q.x, d, p.x);
    DivExact(4.0 * v * q.y, d, p.y);
    DivExact(4.0 * v * q.z, d, p.z);
  }

  /** Candidate `k` is `q` scaled by the sign of `q_k`, once `|q_k| >= 1/2`. */
  lemma {:induction false} CandidateOfUnit(b: ComputeBackend, q: Quat, k: nat)
    requires SqrtSound(b) && NormSq(q) == 1.0 && k < 4 && Abs(Component(q, k)) >= 0.5
    ensures Candidate(b, QuaternionToMatrix(q), k) == (if Component(q, k) >= 0.0 then q else Neg(q))
  {
    var m := QuaternionToMatrix(q);
    QAbsOfUnit(b, q);
    RowsOfUnit(b, q);
    assert QuatByRijk(b, m)[k] == Scale(4.0 * Component(q, k), q);
    assert QAbs(b, m)[k] == 2.0 * Abs(Component(q, k));
    DivideScaled(q, Component(q, k));
  }

  /** `argmax` of `q_abs` picks a component of largest magnitude. */
  lemma {:induction false} ArgmaxOfMagnitudes(q: Quat, a: seq<real>)
    requires a == [2.0 * Abs(q.w), 2.0 * Abs(q.x), 2.0 * Abs(q.y), 2.0 * Abs(q.z)]
    ensures FirstArgmax(a) < 4
    ensures var t := Abs(Component(q, FirstArgmax(a)));
      Abs(q.w) <= t && Abs(q.x) <= t && Abs(q.y) <= t && Abs(q.z) <= t
  {
    var k := FirstArgmax(a);
    assert a[0] <= a[k] && a[1] <= a[k] && a[2] <= a[k] && a[3] <= a[k];
    assert a[k] == 2.0 * Abs(Component(q, k));
  }

  /** A component of largest magnitude of a unit quaternion is at least 1/2. */
  lemma {:induction false} LargestComponent(q: Quat, k: nat)
    requires NormSq(q) == 1.0 && k < 4
    requires var t := Abs(Component(q, k));
      Abs(q.w) <= t && Abs(q.x) <= t && Abs(q.y) <= t && Abs(q.z) <= t
    ensures Abs(Component(q, k)) >= 0.5
  {
    LargestOfFour(q.w, q.x, q.y, q.z, Abs(Component(q, k)));
  }

  /** The picked candidate is `±q`: `q` scaled by the sign of its component
      of largest magnitude. */
  lemma {:induction false} PickedCandidate(b: ComputeBackend, q: Quat)
    requires SqrtSound(b) && NormSq(q) == 1.0
    ensures var k := FirstArgmax(QAbs(b, QuaternionToMatrix(q)));
      k < 4 && Candidate(b, QuaternionToMatrix(q), k) == (if Component(q, k) >= 0.0 then q else Neg(q))
  {
    QAbsOfUnit(b, q);
    ArgmaxOfMagnitudes(q, QAbs(b, QuaternionToMatrix(q)));
    LargestComponent(q, FirstArgmax(QAbs(b, QuaternionToMatrix(q))));
    CandidateOfUnit(b, q, FirstArgmax(QAbs(b, QuaternionToMatrix(q))));
  }

  /** `matrix_to_quaternion(quaternion_to_matrix(q))` is `q` or `-q` for a
      unit quaternion, and is `standardize_quaternion(q)` when the real part
      is nonzero. */
  lemma {:induction false} MatrixToQuaternionInverts(b: ComputeBackend, shape: seq<nat>, q: Quat)
    requires SqrtSound(b) && NormSq(q) == 1.0 && CheckMatrixShape(shape).Ok?
    ensures MatrixToQuaternion(b, shape, QuaternionToMatrix(q)).Ok?
    ensures var r := MatrixToQuaternion(b, shape, QuaternionToMatrix(q)).value;
      (r == q || r == Neg(q)) && r.w >= 0.0
    ensures q.w != 0.0 ==> MatrixToQuaternion(b, shape, QuaternionToMatrix(q)) == Ok(Standardize(q))
  {
    PickedCandidate(b, q);
    var m := QuaternionToMatrix(q);
    var k := FirstArgmax(QAbs(b, m));
    if Component(q, k) < 0.0 {
      assert Neg(Neg(q)) == q;
      if q.w != 0.0 {
        StandardizeOfNeg(q);
      }
    }
  }
}
