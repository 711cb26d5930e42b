/** The Euler-angle part of the rotation conversions (base.py): the
    elementary axis rotations, the validation of convention strings, and the
    index and sign tables through which `matrix_to_euler_angles` reads each
    angle back out of a rotation matrix. */
module EulerAngles {
  import opened PyErrors
  import opened Backend
  import opened LinearAlgebra
  import MatrixToQuaternion

  /** The axis labels, in the order of their indices. */
  const Letters: seq<string> := ["X", "Y", "Z"]

  const LetterMessage: string := "letter must be either X, Y or Z."

  /** The twelve conventions: three letters from X, Y, Z whose middle letter
      differs from both neighbours. */
  const Conventions: seq<string> :=
    ["XYX", "XYZ", "XZX", "XZY", "YXY", "YXZ", "YZX", "YZY", "ZXY", "ZXZ", "ZYX", "ZYZ"]

  /** `_index_from_letter`: X, Y and Z are the axes 0, 1 and 2. */
  function IndexFromLetter(letter: string): (r: Result<nat>)
    ensures r.Ok? <==> letter in Letters
    ensures r.Ok? ==> r.value < 3 && Letters[r.value] == letter
    ensures r.Err? ==> r == Err(ValueError(LetterMessage))
  {
    if letter == "X" then Ok(0)
    else if letter == "Y" then Ok(1)
    else if letter == "Z" then Ok(2)
    else Err(ValueError(LetterMessage))
  }

  /** The stacked `R_flat` of `_axis_angle_rotation` for the axis with index
      `i`, given the cosine and sine of the angle. */
  function ElementaryRotation(i: nat, cos: real, sin: real): Mat3
    requires i < 3
  {
    if i == 0 then Mat3(Vec3(1.0, 0.0, 0.0), Vec3(0.0, cos, -sin), Vec3(0.0, sin, cos))
    else if i == 1 then Mat3(Vec3(cos, 0.0, sin), Vec3(0.0, 1.0, 0.0), Vec3(-sin, 0.0, cos))
    else Mat3(Vec3(cos, -sin, 0.0), Vec3(sin, cos, 0.0), Vec3(0.0, 0.0, 1.0))
  }

  /** `_axis_angle_rotation` for one angle: the elementary rotation about
      the labelled axis, and ValueError for any other label. */
  function AxisAngleRotation(b: ComputeBackend, axis: string, angle: real): (r: Result<Mat3>)
    ensures r.Ok? <==> axis in Letters
    ensures r.Err? ==> r == Err(ValueError(LetterMessage))
  {
    var cos := b.cos(angle);
    var sin := b.sin(angle);
    if axis == "X" then Ok(ElementaryRotation(0, cos, sin))
    else if axis == "Y" then Ok(ElementaryRotation(1, cos, sin))
    else if axis == "Z" then Ok(ElementaryRotation(2, cos, sin))
    else Err(ValueError(LetterMessage))
  }

  lemma AxisAngleRotationByIndex(b: ComputeBackend, axis: string, angle: real)
    requires axis in Letters
    ensures AxisAngleRotation(b, axis, angle) == Ok(ElementaryRotation(IndexFromLetter(axis).value, b.cos(angle), b.sin(angle)))
  {
    if axis == "X" {
      assert IndexFromLetter(axis) == Ok(0);
    } else if axis == "Y" {
      assert IndexFromLetter(axis) == Ok(1);
    } else {
      assert IndexFromLetter(axis) == Ok(2);
    }
  }

  /** The elementary matrix leaves its own axis where it is, in both the
      column and the row convention. */
  lemma ElementaryRotationFixesAxis(i: nat, cos: real, sin: real)
    requires i < 3
    ensures Apply(ElementaryRotation(i, cos, sin), Basis(i)) == Basis(i)
    ensures RowTimes(Basis(i), ElementaryRotation(i, cos, sin)) == Basis(i)
  {
  }

  /** `_axis_angle_rotation` fixes the vector of its own axis, whatever the
      angle. */
  lemma {:induction false} AxisAngleRotationFixesAxis(b: ComputeBackend, axis: string, angle: real)
    requires axis in Letters
    ensures var i := IndexFromLetter(axis).value; var m := AxisAngleRotation(b, axis, angle).value;
      Apply(m, Basis(i)) == Basis(i) && RowTimes(Basis(i), m) == Basis(i)
  {
    AxisAngleRotationByIndex(b, axis, angle);
    ElementaryRotationFixesAxis(IndexFromLetter(axis).value, b.cos(angle), b.sin(angle));
  }

  /** The product of an elementary matrix with its transpose, either way
      round, has `cos² + sin²` where the rotation plane meets itself and
      zeros off the diagonal. */
  lemma ElementaryRotationGram(i: nat, cos: real, sin: real)
    requires i < 3
    ensures var m := ElementaryRotation(i, cos, sin); var n := cos * cos + sin * sin;
      MatMul(m, Transpose(m)) == MatMul(Transpose(m), m) == (
        if i == 0 then Mat3(Vec3(1.0, 0.0, 0.0), Vec3(0.0, n, 0.0), Vec3(0.0, 0.0, n))
        else if i == 1 then Mat3(Vec3(n, 0.0, 0.0), Vec3(0.0, 1.0, 0.0), Vec3(0.0, 0.0, n))
        else Mat3(Vec3(n, 0.0, 0.0), Vec3(0.0, n, 0.0), Vec3(0.0, 0.0, 1.0)))
  {
  }

  lemma {:induction false} ElementaryRotationOrthogonal(i: nat, cos: real, sin: real)
    requires i < 3 && cos * cos + sin * sin == 1.0
    ensures MatMul(ElementaryRotation(i, cos, sin), Transpose(ElementaryRotation(i, cos, sin))) == Identity
    ensures MatMul(Transpose(ElementaryRotation(i, cos, sin)), ElementaryRotation(i, cos, sin)) == Identity
  {
    ElementaryRotationGram(i, cos, sin);
  }

  lemma ElementaryRotationDet(i: nat, cos: real, sin: real)
    requires i < 3
    ensures Det(ElementaryRotation(i, cos, sin)) == cos * cos + sin * sin
  {
  }

  /** With `cos² + sin² = 1` the elementary matrix is a rotation. */
  lemma {:induction false} ElementaryRotationIsRotation(i: nat, cos: real, sin: real)
    requires i < 3 && cos * cos + sin * sin == 1.0
    ensures IsRotation(ElementaryRotation(i, cos, sin))
  {
    ElementaryRotationOrthogonal(i, cos, sin);
    ElementaryRotationDet(i, cos, sin);
  }

  /** Given `sin² + cos² = 1` at the angle, every axis rotation is in SO(3). */
  lemma {:induction false} AxisAngleRotationIsRotation(b: ComputeBackend, axis: string, angle: real)
    requires axis in Letters && Pythagorean(b, angle)
    ensures IsRotation(AxisAngleRotation(b, axis, angle).value)
  {
    var cos := b.cos(angle);
    var sin := b.sin(angle);
    ElementaryRotationIsRotation(IndexFromLetter(axis).value, cos, sin);
  }

  /** The addition theorems of `sin` and `cos` at `t + u`. */
  ghost predicate AngleSum(b: ComputeBackend, t: real, u: real)
  {
    b.cos(t + u) == b.cos(t) * b.cos(u) - b.sin(t) * b.sin(u)
    && b.sin(t + u) == b.sin(t) * b.cos(u) + b.cos(t) * b.sin(u)
  }

  lemma ElementaryRotationSum(i: nat, c: real, s: real, d: real, e: real, cs: real, ss: real)
    requires i < 3 && cs == c * d - s * e && ss == s * d + c * e
    ensures MatMul(ElementaryRotation(i, c, s), ElementaryRotation(i, d, e)) == ElementaryRotation(i, cs, ss)
  {
    var m := MatMul(ElementaryRotation(i, c, s), ElementaryRotation(i, d, e));
    if i == 0 {
      assert m == Mat3(Vec3(1.0, 0.0, 0.0), Vec3(0.0, cs, -ss), Vec3(0.0, ss, cs));
    } else if i == 1 {
      assert m == Mat3(Vec3(cs, 0.0, ss), Vec3(0.0, 1.0, 0.0), Vec3(-ss, 0.0, cs));
    } else {
      assert m == Mat3(Vec3(cs, -ss, 0.0), Vec3(ss, cs, 0.0), Vec3(0.0, 0.0, 1.0));
    }
  }

  /** Two rotations about the same axis compose to the rotation by the sum
      of their angles. */
  lemma {:induction false} AxisAngleRotationSum(b: ComputeBackend, axis: string, t: real, u: real)
    requires axis in Letters && AngleSum(b, t, u)
    ensures MatMul(AxisAngleRotation(b, axis, t).value, AxisAngleRotation(b, axis, u).value)
         == AxisAngleRotation(b, axis, t + u).value
  {
    var c, s, d, e := b.cos(t), b.sin(t), b.cos(u), b.sin(u);
    var cs, ss := b.cos(t + u), b.sin(t + u);
    ElementaryRotationSum(IndexFromLetter(axis).value, c, s, d, e, cs, ss);
  }

  /** One character of the validation loop's test `letter in ("X", "Y", "Z")`. */
  predicate IsAxisLetter(ch: char)
  {
    ch == 'X' || ch == 'Y' || ch == 'Z'
  }

  /** Where the validation loop stops: the index of the first character
      that is not an axis letter, or the length when there is none. */
  function FirstInvalidLetter(s: string): (r: nat)
    ensures r <= |s|
    ensures forall i :: 0 <= i < r ==> IsAxisLetter(s[i])
    ensures r < |s| ==> !IsAxisLetter(s[r])
  {
    if |s| == 0 then 0
    else if IsAxisLetter(s[0]) then 1 + FirstInvalidLetter(s[1..])
    else 0
  }

  /** The structural description of a convention, as the checks state it. */
  lemma {:induction false} ConventionsAreStructural(c: string)
    ensures c in Conventions <==>
      |c| == 3 && IsAxisLetter(c[0]) && IsAxisLetter(c[1]) && IsAxisLetter(c[2])
      && c[1] != c[0] && c[1] != c[2]
  {
    if |c| == 3 {
      assert c == [c[0], c[1], c[2]];
    }
  }

  /** The convention checks shared by `euler_angles_to_matrix` and
      `matrix_to_euler_angles`, in the order the source makes them: the
      length, the middle letter, then each letter. It accepts exactly the
      twelve conventions. */
  function ValidateConvention(c: string): (r: Result<()>)
    ensures r.Ok? <==> c in Conventions
    ensures |c| != 3 ==> r == Err(ValueError("Convention must have 3 letters."))
    ensures |c| == 3 && (c[1] == c[0] || c[1] == c[2]) ==> r == Err(ValueError("Invalid convention " + c + "."))
    ensures |c| == 3 && c[1] != c[0] && c[1] != c[2] && r.Err? ==>
      var k := FirstInvalidLetter(c);
      k < 3 && r == Err(ValueError("Invalid letter " + [c[k]] + " in convention string."))
    ensures r.Err? ==> r.error.ValueError?
  {
    ConventionsAreStructural(c);
    if |c| != 3 then Err(ValueError("Convention must have 3 letters."))
    else if c[1] == c[0] || c[1] == c[2] then Err(ValueError("Invalid convention " + c + "."))
    else if FirstInvalidLetter(c) < 3 then
      Err(ValueError("Invalid letter " + [c[FirstInvalidLetter(c)]] + " in convention string."))
    else Ok(())
  }

  /** Each letter of a convention, as a one-letter string, is an axis label. */
  lemma ConventionLetters(c: string)
    requires c in Conventions
    ensures |c| == 3 && [c[0]] in Letters && [c[1]] in Letters && [c[2]] in Letters
  {
    ConventionsAreStructural(c);
  }

  /** The check `euler_angles.dim() == 0 or euler_angles.shape[-1] != 3`. */
  predicate AnglesShapeOk(shape: seq<nat>)
  {
    |shape| >= 1 && shape[|shape| - 1] == 3
  }

  /** `euler_angles_to_matrix` for one triple of angles: after the shape and
      convention checks, the product `R0 R1 R2` of the axis rotations in
      convention order. */
  function EulerAnglesToMatrix(b: ComputeBackend, shape: seq<nat>, angles: Vec3, c: string): (r: Result<Mat3>)
    ensures r.Ok? <==> AnglesShapeOk(shape) && c in Conventions
    ensures !AnglesShapeOk(shape) ==> r == Err(ValueError("Invalid input euler angles."))
    ensures AnglesShapeOk(shape) && r.Err? ==> r == Err(ValidateConvention(c).error)
  {
    if !AnglesShapeOk(shape) then Err(ValueError("Invalid input euler angles."))
    else match ValidateConvention(c)
      case Err(e) => Err(e)
      case Ok(_) =>
        ConventionLetters(c);
        var r0 := AxisAngleRotation(b, [c[0]], angles.x).value;
        var r1 := AxisAngleRotation(b, [c[1]], angles.y).value;
        var r2 := AxisAngleRotation(b, [c[2]], angles.z).value;
        Ok(MatMul(MatMul(r0, r1), r2))
  }

  lemma ApplyMatMul(a: Mat3, m: Mat3, v: Vec3)
    ensures Apply(MatMul(a, m), v) == Apply(a, Apply(m, v))
  {
    DotRowTimes(a.r0, m, v);
    DotRowTimes(a.r1, m, v);
    DotRowTimes(a.r2, m, v);
  }

  /** The composition order: a column vector is turned by the third
      angle's rotation first and by the first angle's rotation last. */
  lemma {:induction false} EulerAnglesToMatrixApply(b: ComputeBackend, shape: seq<nat>, angles: Vec3, c: string, v: Vec3)
    requires AnglesShapeOk(shape) && c in Conventions
    ensures EulerAnglesToMatrix(b, shape, angles, c).Ok?
    ensures AxisAngleRotation(b, [c[0]], angles.x).Ok? && AxisAngleRotation(b, [c[1]], angles.y).Ok?
      && AxisAngleRotation(b, [c[2]], angles.z).Ok?
      && Apply(EulerAnglesToMatrix(b, shape, angles, c).value, v)
      == Apply(AxisAngleRotation(b, [c[0]], angles.x).value,
           Apply(AxisAngleRotation(b, [c[1]], angles.y).value,
             Apply(AxisAngleRotation(b, [c[2]], angles.z).value, v)))
  {
    ConventionLetters(c);
    var r0 := AxisAngleRotation(b, [c[0]], angles.x).value;
    var r1 := AxisAngleRotation(b, [c[1]], angles.y).value;
    var r2 := AxisAngleRotation(b, [c[2]], angles.z).value;
    ApplyMatMul(MatMul(r0, r1), r2, v);
    ApplyMatMul(r0, r1, Apply(r2, v));
  }

  /** Given `sin² + cos² = 1` at the three angles, the result is in SO(3). */
  lemma {:induction false} EulerAnglesToMatrixIsRotation(b: ComputeBackend, shape: seq<nat>, angles: Vec3, c: string)
    requires AnglesShapeOk(shape) && c in Conventions
    requires Pythagorean(b, angles.x) && Pythagorean(b, angles.y) && Pythagorean(b, angles.z)
    ensures EulerAnglesToMatrix(b, shape, angles, c).Ok?
    ensures IsRotation(EulerAnglesToMatrix(b, shape, angles, c).value)
  {
    ConventionLetters(c);
    var r0 := AxisAngleRotation(b, [c[0]], angles.x).value;
    var r1 := AxisAngleRotation(b, [c[1]], angles.y).value;
    var r2 := AxisAngleRotation(b, [c[2]], angles.z).value;
    AxisAngleRotationIsRotation(b, [c[0]], angles.x);
    AxisAngleRotationIsRotation(b, [c[1]], angles.y);
    AxisAngleRotationIsRotation(b, [c[2]], angles.z);
    RotationProduct(r0, r1);
    RotationProduct(MatMul(r0, r1), r2);
  }

  /** The dictionary of `_angle_from_tan`: for each axis, the two entries of
      the column (or, swapped, of the row) that carry the angle's cosine and
      sine. */
  const TanIndices: map<string, (nat, nat)> := map["X" := (2, 1), "Y" := (0, 2), "Z" := (1, 0)]

  /** `even` of `_angle_from_tan`: the two labels, concatenated, are XY, YZ
      or ZX. */
  predicate IsEvenPair(axis: string, otherAxis: string)
  {
    axis + otherAxis in ["XY", "YZ", "ZX"]
  }

  /** An even pair is one whose second axis follows the first cyclically. */
  lemma {:induction false} EvenPairCyclic(axis: string, otherAxis: string)
    requires axis in Letters && otherAxis in Letters
    ensures IsEvenPair(axis, otherAxis)
        <==> IndexFromLetter(otherAxis).value == (IndexFromLetter(axis).value + 1) % 3
  {
    assert axis + otherAxis == [axis[0], otherAxis[0]];
  }

  /** The dictionary pairs each axis with the next index but one and the
      next index: X with (2, 1), Y with (0, 2), Z with (1, 0). */
  lemma TanIndicesCyclic(axis: string)
    requires axis in Letters
    ensures axis in TanIndices
    ensures var i := IndexFromLetter(axis).value; TanIndices[axis] == ((i + 2) % 3, (i + 1) % 3)
  {
  }

  /** The two arguments `_angle_from_tan` hands to `atan2`; a label outside
      the dictionary raises KeyError. */
  function TanArguments(axis: string, otherAxis: string, data: Vec3, horizontal: bool, taitBryan: bool): (r: Result<(real, real)>)
    ensures r.Ok? <==> axis in Letters
    ensures r.Err? ==> r == Err(KeyError)
  {
    if axis !in TanIndices then Err(KeyError)
    else
      var (first, second) := TanIndices[axis];
      var (i1, i2) := if horizontal then (second, first) else (first, second);
      var even := IsEvenPair(axis, otherAxis);
      if horizontal == even then Ok((data.At(i1), data.At(i2)))
      else if taitBryan then Ok((-data.At(i2), data.At(i1)))
      else Ok((data.At(i2), -data.At(i1)))
  }

  /** The arguments of `_angle_from_tan` in terms of axis indices: `i` is
      the axis of the angle, `j` the middle axis of the convention. */
  function CyclicTanArguments(i: nat, j: nat, data: Vec3, horizontal: bool, taitBryan: bool): (real, real)
    requires i < 3
  {
    var (i1, i2) := if horizontal then ((i + 1) % 3, (i + 2) % 3) else ((i + 2) % 3, (i + 1) % 3);
    if horizontal == (j == (i + 1) % 3) then (data.At(i1), data.At(i2))
    else if taitBryan then (-data.At(i2), data.At(i1))
    else (data.At(i2), -data.At(i1))
  }

  lemma {:induction false} TanArgumentsCyclic(axis: string, otherAxis: string, data: Vec3, horizontal: bool, taitBryan: bool)
    requires axis in Letters && otherAxis in Letters
    ensures TanArguments(axis, otherAxis, data, horizontal, taitBryan)
         == Ok(CyclicTanArguments(IndexFromLetter(axis).value, IndexFromLetter(otherAxis).value, data, horizontal, taitBryan))
  {
    EvenPairCyclic(axis, otherAxis);
    TanIndicesCyclic(axis);
  }

  /** `_angle_from_tan`: the first or third Euler angle from the two entries
      of the matrix that are a common factor times its sine and cosine. */
  function AngleFromTan(b: ComputeBackend, axis: string, otherAxis: string, data: Vec3, horizontal: bool, taitBryan: bool): (r: Result<real>)
    ensures r.Ok? <==> axis in Letters
    ensures r.Err? ==> r == Err(KeyError)
  {
    match TanArguments(axis, otherAxis, data, horizontal, taitBryan)
    case Err(e) => Err(e)
    case Ok((y, x)) => Ok(b.atan2(y, x))
  }

  /** The middle angle of `matrix_to_euler_angles`: for a Tait-Bryan
      convention the arcsine of `m[i0][i2]`, negated when `i0 - i2` is -1
      or 2; otherwise the arccosine of `m[i0][i0]`; both clipped to [-1, 1]. */
  function CentralAngle(b: ComputeBackend, m: Mat3, i0: nat, i2: nat): real
    requires i0 < 3 && i2 < 3
  {
    if i0 != i2 then
      b.asin(Clip(m.At(i0, i2), -1.0, 1.0) * (if i0 as int - i2 as int in [-1, 2] then -1.0 else 1.0))
    else
      b.acos(Clip(m.At(i0, i0), -1.0, 1.0))
  }

  /** `matrix_to_euler_angles` for one matrix: the convention checks, then
      the shape check, then the three angles. */
  function MatrixToEulerAngles(b: ComputeBackend, shape: seq<nat>, m: Mat3, c: string): (r: Result<Vec3>)
    ensures r.Ok? <==> c in Conventions && MatrixToQuaternion.CheckMatrixShape(shape).Ok?
    ensures ValidateConvention(c).Err? ==> r == Err(ValidateConvention(c).error)
    ensures c in Conventions && r.Err? ==> r == Err(MatrixToQuaternion.CheckMatrixShape(shape).error)
  {
    match ValidateConvention(c)
    case Err(e) => Err(e)
    case Ok(_) =>
      match MatrixToQuaternion.CheckMatrixShape(shape)
      case Err(e) => Err(e)
      case Ok(_) =>
        ConventionLetters(c);
        var i0 := IndexFromLetter([c[0]]).value;
        var i2 := IndexFromLetter([c[2]]).value;
        var taitBryan := i0 != i2;
        var central := CentralAngle(b, m, i0, i2);
        var first := AngleFromTan(b, [c[0]], [c[1]], m.Col(i2), false, taitBryan).value;
        var third := AngleFromTan(b, [c[2]], [c[1]], m.Row(i0), true, taitBryan).value;
        Ok(Vec3(first, central, third))
  }

  /** The product `R0 R1 R2` of the elementary rotations about the axes
      `i0`, `i1`, `i2`, given the cosine and sine of each angle. */
  function AxisProduct(i0: nat, i1: nat, i2: nat, ca: real, sa: real, cb: real, sb: real, cg: real, sg: real): Mat3
    requires i0 < 3 && i1 < 3 && i2 < 3
  {
    MatMul(MatMul(ElementaryRotation(i0, ca, sa), ElementaryRotation(i1, cb, sb)), ElementaryRotation(i2, cg, sg))
  }

  /** The three angles `matrix_to_euler_angles` computes once the checks
      have passed, in terms of the axis indices of the convention. */
  function ReadAngles(b: ComputeBackend, m: Mat3, i0: nat, i1: nat, i2: nat): Vec3
    requires i0 < 3 && i1 < 3 && i2 < 3
  {
    var first := CyclicTanArguments(i0, i1, m.Col(i2), false, i0 != i2);
    var third := CyclicTanArguments(i2, i1, m.Row(i0), true, i0 != i2);
    Vec3(b.atan2(first.0, first.1), CentralAngle(b, m, i0, i2), b.atan2(third.0, third.1))
  }

  /** What `matrix_to_euler_angles` should read back from the matrix of the
      angles whose cosines and sines are (ca, sa), (cb, sb), (cg, sg): each
      outer angle as `atan2(k sin, k cos)` with `k = cos β` for a Tait-Bryan
      convention and `k = sin β` for a proper one, and the middle angle from
      `sin β` or `cos β`. */
  function EulerReading(b: ComputeBackend, taitBryan: bool, ca: real, sa: real, cb: real, sb: real, cg: real, sg: real): Vec3
  {
    if taitBryan then
      Vec3(b.atan2(cb * sa, cb * ca), b.asin(Clip(sb, -1.0, 1.0)), b.atan2(cb * sg, cb * cg))
    else
      Vec3(b.atan2(sb * sa, sb * ca), b.acos(Clip(cb, -1.0, 1.0)), b.atan2(sb * sg, sb * cg))
  }

  /** Clipping to [-1, 1] commutes with negation. */
  lemma ClipNegated(v: real)
    ensures Clip(-v, -1.0, 1.0) * -1.0 == Clip(v, -1.0, 1.0)
  {
  }

  lemma ProductXYX(ca: real, sa: real, cb: real, sb: real, cg: real, sg: real)
    ensures AxisProduct(0, 1, 0, ca, sa, cb, sb, cg, sg)
         == Mat3(Vec3(cb, (sb * sg), (cg * sb)), Vec3((sa * sb), (ca * cg) - (cb * sa * sg), -(ca * sg) - (cb * cg * sa)), Vec3(-(ca * sb), (ca * cb * sg) + (cg * sa), (ca * cb * cg) - (sa * sg)))
  {
    assert MatMul(ElementaryRotation(0, ca, sa), ElementaryRotation(1, cb, sb))
        == Mat3(Vec3(cb, 0.0, sb), Vec3((sa * sb), ca, -(cb * sa)), Vec3(-(ca * sb), sa, (ca * cb)));
  }

  lemma {:induction false} ReadingXYX(b: ComputeBackend, ca: real, sa: real, cb: real, sb: real, cg: real, sg: real)
    ensures ReadAngles(b, AxisProduct(0, 1, 0, ca, sa, cb, sb, cg, sg), 0, 1, 0)
         == EulerReading(b, false, ca, sa, cb, sb, cg, sg)
  {
    ProductXYX(ca, sa, cb, sb, cg, sg);
  }

  lemma ProductXYZ(ca: real, sa: real, cb: real, sb: real, cg: real, sg: real)
    ensures AxisProduct(0, 1, 2, ca, sa, cb, sb, cg, sg)
         == Mat3(Vec3((cb * cg), -(cb * sg), sb), Vec3((ca * sg) + (cg * sa * sb), (ca * cg) - (sa * sb * sg), -(cb * sa)), Vec3(-(ca * cg * sb) + (sa * sg), (ca * sb * sg) + (cg * sa), (ca * cb)))
  {
    assert MatMul(ElementaryRotation(0, ca, sa), ElementaryRotation(1, cb, sb))
        == Mat3(Vec3(cb, 0.0, sb), Vec3((sa * sb), ca, -(cb * sa)), Vec3(-(ca * sb), sa, (ca * cb)));
  }

  lemma {:induction false} ReadingXYZ(b: ComputeBackend, ca: real, sa: real, cb: real, sb: real, cg: real, sg: real)
    ensures ReadAngles(b, AxisProduct(0, 1, 2, ca, sa, cb, sb, cg, sg), 0, 1, 2)
         == EulerReading(b, true, ca, sa, cb, sb, cg, sg)
  {
    ProductXYZ(ca, sa, cb, sb, cg, sg);
  }

  lemma ProductXZX(ca: real, sa: real, cb: real, sb: real, cg: real, sg: real)
    ensures AxisProduct(0, 2, 0, ca, sa, cb, sb, cg, sg)
         == Mat3(Vec3(cb, -(cg * sb), (sb * sg)), Vec3((ca * sb), (ca * cb * cg) - (sa * sg), -(ca * cb * sg) - (cg * sa)), Vec3((sa * sb), (ca * sg) + (cb * cg * sa), (ca * cg) - (cb * sa * sg)))
  {
    assert MatMul(ElementaryRotation(0, ca, sa), ElementaryRotation(2, cb, sb))
        == Mat3(Vec3(cb, -sb, 0.0), Vec3((ca * sb), (ca * cb), -sa), Vec3((sa * sb), (cb * sa), ca));
  }

  lemma {:induction false} ReadingXZX(b: ComputeBackend, ca: real, sa: real, cb: real, sb: real, cg: real, sg: real)
    ensures ReadAngles(b, AxisProduct(0, 2, 0, ca, sa, cb, sb, cg, sg), 0, 2, 0)
         == EulerReading(b, false, ca, sa, cb, sb, cg, sg)
  {
    ProductXZX(ca, sa, cb, sb, cg, sg);
  }

  lemma ProductXZY(ca: real, sa: real, cb: real, sb: real, cg: real, sg: real)
    ensures AxisProduct(0, 2, 1, ca, sa, cb, sb, cg, sg)
         == Mat3(Vec3((cb * cg), -sb, (cb * sg)), Vec3((ca * cg * sb) + (sa * sg), (ca * cb), (ca * sb * sg) - (cg * sa)), Vec3(-(ca * sg) + (cg * sa * sb), (cb * sa), (ca * cg) + (sa * sb * sg)))
  {
    assert MatMul(ElementaryRotation(0, ca, sa), ElementaryRotation(2, cb, sb))
        == Mat3(Vec3(cb, -sb, 0.0), Vec3((ca * sb), (ca * cb), -sa), Vec3((sa * sb), (cb * sa), ca));
  }

  lemma {:induction false} ReadingXZY(b: ComputeBackend, ca: real, sa: real, cb: real, sb: real, cg: real, sg: real)
    ensures ReadAngles(b, AxisProduct(0, 2, 1, ca, sa, cb, sb, cg, sg), 0, 2, 1)
         == EulerReading(b, true, ca, sa, cb, sb, cg, sg)
  {
    ProductXZY(ca, sa, cb, sb, cg, sg);
    ClipNegated(sb);
  }

  lemma ProductYXY(ca: real, sa: real, cb: real, sb: real, cg: real, sg: real)
    ensures AxisProduct(1, 0, 1, ca, sa, cb, sb, cg, sg)
         == Mat3(Vec3((ca * cg) - (cb * sa * sg), (sa * sb), (ca * sg) + (cb * cg * sa)), Vec3((sb * sg), cb, -(cg * sb)), Vec3(-(ca * cb * sg) - (cg * sa), (ca * sb), (ca * cb * cg) - (sa * sg)))
  {
    assert MatMul(ElementaryRotation(1, ca, sa), ElementaryRotation(0, cb, sb))
        == Mat3(Vec3(ca, (sa * sb), (cb * sa)), Vec3(0.0, cb, -sb), Vec3(-sa, (ca * sb), (ca * cb)));
  }

  lemma {:induction false} ReadingYXY(b: ComputeBackend, ca: real, sa: real, cb: real, sb: real, cg: real, sg: real)
    ensures ReadAngles(b, AxisProduct(1, 0, 1, ca, sa, cb, sb, cg, sg), 1, 0, 1)
         == EulerReading(b, false, ca, sa, cb, sb, cg, sg)
  {
    ProductYXY(ca, sa, cb, sb, cg, sg);
  }

  lemma ProductYXZ(ca: real, sa: real, cb: real, sb: real, cg: real, sg: real)
    ensures AxisProduct(1, 0, 2, ca, sa, cb, sb, cg, sg)
         == Mat3(Vec3((ca * cg) + (sa * sb * sg), -(ca * sg) + (cg * sa * sb), (cb * sa)), Vec3((cb * sg), (cb * cg), -sb), Vec3((ca * sb * sg) - (cg * sa), (ca * cg * sb) + (sa * sg), (ca * cb)))
  {
    assert MatMul(ElementaryRotation(1, ca, sa), ElementaryRotation(0, cb, sb))
        == Mat3(Vec3(ca, (sa * sb), (cb * sa)), Vec3(0.0, cb, -sb), Vec3(-sa, (ca * sb), (ca * cb)));
  }

  lemma {:induction false} ReadingYXZ(b: ComputeBackend, ca: real, sa: real, cb: real, sb: real, cg: real, sg: real)
    ensures ReadAngles(b, AxisProduct(1, 0, 2, ca, sa, cb, sb, cg, sg), 1, 0, 2)
         == EulerReading(b, true, ca, sa, cb, sb, cg, sg)
  {
    ProductYXZ(ca, sa, cb, sb, cg, sg);
    ClipNegated(sb);
  }

  lemma ProductYZX(ca: real, sa: real, cb: real, sb: real, cg: real, sg: real)
    ensures AxisProduct(1, 2, 0, ca, sa, cb, sb, cg, sg)
         == Mat3(Vec3((ca * cb), -(ca * cg * sb) + (sa * sg), (ca * sb * sg) + (cg * sa)), Vec3(sb, (cb * cg), -(cb * sg)), Vec3(-(cb * sa), (ca * sg) + (cg * sa * sb), (ca * cg) - (sa * sb * sg)))
  {
    assert MatMul(ElementaryRotation(1, ca, sa), ElementaryRotation(2, cb, sb))
        == Mat3(Vec3((ca * cb), -(ca * sb), sa), Vec3(sb, cb, 0.0), Vec3(-(cb * sa), (sa * sb), ca));
  }

  lemma {:induction false} ReadingYZX(b: ComputeBackend, ca: real, sa: real, cb: real, sb: real, cg: real, sg: real)
    ensures ReadAngles(b, AxisProduct(1, 2, 0, ca, sa, cb, sb, cg, sg), 1, 2, 0)
         == EulerReading(b, true, ca, sa, cb, sb, cg, sg)
  {
    ProductYZX(ca, sa, cb, sb, cg, sg);
  }

  lemma ProductYZY(ca: real, sa: real, cb: real, sb: real, cg: real, sg: real)
    ensures AxisProduct(1, 2, 1, ca, sa, cb, sb, cg, sg)
         == Mat3(Vec3((ca * cb * cg) - (sa * sg), -(ca * sb), (ca * cb * sg) + (cg * sa)), Vec3((cg * sb), cb, (sb * sg)), Vec3(-(ca * sg) - (cb * cg * sa), (sa * sb), (ca * cg) - (cb * sa * sg)))
  {
    assert MatMul(ElementaryRotation(1, ca, sa), ElementaryRotation(2, cb, sb))
        == Mat3(Vec3((ca * cb), -(ca * sb), sa), Vec3(sb, cb, 0.0), Vec3(-(cb * sa), (sa * sb), ca));
  }

  lemma {:induction false} ReadingYZY(b: ComputeBackend, ca: real, sa: real, cb: real, sb: real, cg: real, sg: real)
    ensures ReadAngles(b, AxisProduct(1, 2, 1, ca, sa, cb, sb, cg, sg), 1, 2, 1)
         == EulerReading(b, false, ca, sa, cb, sb, cg, sg)
  {
    ProductYZY(ca, sa, cb, sb, cg, sg);
  }

  lemma ProductZXY(ca: real, sa: real, cb: real, sb: real, cg: real, sg: real)
    ensures AxisProduct(2, 0, 1, ca, sa, cb, sb, cg, sg)
         == Mat3(Vec3((ca * cg) - (sa * sb * sg), -(cb * sa), (ca * sg) + (cg * sa * sb)), Vec3((ca * sb * sg) + (cg * sa), (ca * cb), -(ca * cg * sb) + (sa * sg)), Vec3(-(cb * sg), sb, (cb * cg)))
  {
    assert MatMul(ElementaryRotation(2, ca, sa), ElementaryRotation(0, cb, sb))
        == Mat3(Vec3(ca, -(cb * sa), (sa * sb)), Vec3(sa, (ca * cb), -(ca * sb)), Vec3(0.0, sb, cb));
  }

  lemma {:induction false} ReadingZXY(b: ComputeBackend, ca: real, sa: real, cb: real, sb: real, cg: real, sg: real)
    ensures ReadAngles(b, AxisProduct(2, 0, 1, ca, sa, cb, sb, cg, sg), 2, 0, 1)
         == EulerReading(b, true, ca, sa, cb, sb, cg, sg)
  {
    ProductZXY(ca, sa, cb, sb, cg, sg);
  }

  lemma ProductZXZ(ca: real, sa: real, cb: real, sb: real, cg: real, sg: real)
    ensures AxisProduct(2, 0, 2, ca, sa, cb, sb, cg, sg)
         == Mat3(Vec3((ca * cg) - (cb * sa * sg), -(ca * sg) - (cb * cg * sa), (sa * sb)), Vec3((ca * cb * sg) + (cg * sa), (ca * cb * cg) - (sa * sg), -(ca * sb)), Vec3((sb * sg), (cg * sb), cb))
  {
    assert MatMul(ElementaryRotation(2, ca, sa), ElementaryRotation(0, cb, sb))
        == Mat3(Vec3(ca, -(cb * sa), (sa * sb)), Vec3(sa, (ca * cb), -(ca * sb)), Vec3(0.0, sb, cb));
  }

  lemma {:induction false} ReadingZXZ(b: ComputeBackend, ca: real, sa: real, cb: real, sb: real, cg: real, sg: real)
    ensures ReadAngles(b, AxisProduct(2, 0, 2, ca, sa, cb, sb, cg, sg), 2, 0, 2)
         == EulerReading(b, false, ca, sa, cb, sb, cg, sg)
  {
    ProductZXZ(ca, sa, cb, sb, cg, sg);
  }

  lemma ProductZYX(ca: real, sa: real, cb: real, sb: real, cg: real, sg: real)
    ensures AxisProduct(2, 1, 0, ca, sa, cb, sb, cg, sg)
         == Mat3(Vec3((ca * cb), (ca * sb * sg) - (cg * sa), (ca * cg * sb) + (sa * sg)), Vec3((cb * sa), (ca * cg) + (sa * sb * sg), -(ca * sg) + (cg * sa * sb)), Vec3(-sb, (cb * sg), (cb * cg)))
  {
    assert MatMul(ElementaryRotation(2, ca, sa), ElementaryRotation(1, cb, sb))
        == Mat3(Vec3((ca * cb), -sa, (ca * sb)), Vec3((cb * sa), ca, (sa * sb)), Vec3(-sb, 0.0, cb));
  }

  lemma {:induction false} ReadingZYX(b: ComputeBackend, ca: real, sa: real, cb: real, sb: real, cg: real, sg: real)
    ensures ReadAngles(b, AxisProduct(2, 1, 0, ca, sa, cb, sb, cg, sg), 2, 1, 0)
         == EulerReading(b, true, ca, sa, cb, sb, cg, sg)
  {
    ProductZYX(ca, sa, cb, sb, cg, sg);
    ClipNegated(sb);
  }

  lemma ProductZYZ(ca: real, sa: real, cb: real, sb: real, cg: real, sg: real)
    ensures AxisProduct(2, 1, 2, ca, sa, cb, sb, cg, sg)
         == Mat3(Vec3((ca * cb * cg) - (sa * sg), -(ca * cb * sg) - (cg * sa), (ca * sb)), Vec3((ca * sg) + (cb * cg * sa), (ca * cg) - (cb * sa * sg), (sa * sb)), Vec3(-(cg * sb), (sb * sg), cb))
  {
    assert MatMul(ElementaryRotation(2, ca, sa), ElementaryRotation(1, cb, sb))
        == Mat3(Vec3((ca * cb), -sa, (ca * sb)), Vec3((cb * sa), ca, (sa * sb)), Vec3(-sb, 0.0, cb));
  }

  lemma {:induction false} ReadingZYZ(b: ComputeBackend, ca: real, sa: real, cb: real, sb: real, cg: real, sg: real)
    ensures ReadAngles(b, AxisProduct(2, 1, 2, ca, sa, cb, sb, cg, sg), 2, 1, 2)
         == EulerReading(b, false, ca, sa, cb, sb, cg, sg)
  {
    ProductZYZ(ca, sa, cb, sb, cg, sg);
  }

  /** The axis index of letter `k` of a convention. */
  function AxisOf(c: string, k: nat): (r: nat)
    requires c in Conventions && k < 3
    ensures r < 3 && k < |c| && Letters[r] == [c[k]]
  {
    ConventionLetters(c);
    IndexFromLetter([c[k]]).value
  }

  /** The middle axis of a convention differs from both ends; the
      convention is Tait-Bryan exactly when its ends differ. */
  lemma {:induction false} ConventionIndices(c: string)
    requires c in Conventions
    ensures AxisOf(c, 0) != AxisOf(c, 1) && AxisOf(c, 1) != AxisOf(c, 2)
    ensures AxisOf(c, 0) != AxisOf(c, 2) <==> c[0] != c[2]
  {
    ConventionLetters(c);
    ConventionsAreStructural(c);
  }

  /** `euler_angles_to_matrix` is the product of the elementary rotations
      about the convention's axes. */
  lemma {:induction false} EulerAnglesToMatrixByIndex(b: ComputeBackend, shape: seq<nat>, angles: Vec3, c: string)
    requires AnglesShapeOk(shape) && c in Conventions
    ensures EulerAnglesToMatrix(b, shape, angles, c)
         == Ok(AxisProduct(AxisOf(c, 0), AxisOf(c, 1), AxisOf(c, 2),
                 b.cos(angles.x), b.sin(angles.x), b.cos(angles.y), b.sin(angles.y), b.cos(angles.z), b.sin(angles.z)))
  {
    ConventionLetters(c);
    AxisAngleRotationByIndex(b, [c[0]], angles.x);
    AxisAngleRotationByIndex(b, [c[1]], angles.y);
    AxisAngleRotationByIndex(b, [c[2]], angles.z);
  }

  /** Past its checks, `matrix_to_euler_angles` reads the angles through
      the cyclic index tables. */
  lemma {:induction false} MatrixToEulerAnglesByIndex(b: ComputeBackend, shape: seq<nat>, m: Mat3, c: string)
    requires c in Conventions && MatrixToQuaternion.CheckMatrixShape(shape).Ok?
    ensures MatrixToEulerAngles(b, shape, m, c) == Ok(ReadAngles(b, m, AxisOf(c, 0), AxisOf(c, 1), AxisOf(c, 2)))
  {
    ConventionLetters(c);
    var i0, i2 := AxisOf(c, 0), AxisOf(c, 2);
    TanArgumentsCyclic([c[0]], [c[1]], m.Col(i2), false, i0 != i2);
    TanArgumentsCyclic([c[2]], [c[1]], m.Row(i0), true, i0 != i2);
  }

  /** The twelve readings at once: any three axes whose middle one differs
      from both ends. */
  lemma {:induction false} ReadingByIndex(b: ComputeBackend, i0: nat, i1: nat, i2: nat,
                                          ca: real, sa: real, cb: real, sb: real, cg: real, sg: real)
    requires i0 < 3 && i1 < 3 && i2 < 3 && i0 != i1 && i1 != i2
    ensures ReadAngles(b, AxisProduct(i0, i1, i2, ca, sa, cb, sb, cg, sg), i0, i1, i2)
         == EulerReading(b, i0 != i2, ca, sa, cb, sb, cg, sg)
  {
    if i0 == 0 && i1 == 1 && i2 == 0 {
      ReadingXYX(b, ca, sa, cb, sb, cg, sg);
    } else if i0 == 0 && i1 == 1 && i2 == 2 {
      ReadingXYZ(b, ca, sa, cb, sb, cg, sg);
    } else if i0 == 0 && i1 == 2 && i2 == 0 {
      ReadingXZX(b, ca, sa, cb, sb, cg, sg);
    } else if i0 == 0 && i1 == 2 && i2 == 1 {
      ReadingXZY(b, ca, sa, cb, sb, cg, sg);
    } else if i0 == 1 && i1 == 0 && i2 == 1 {
      ReadingYXY(b, ca, sa, cb, sb, cg, sg);
    } else if i0 == 1 && i1 == 0 && i2 == 2 {
      ReadingYXZ(b, ca, sa, cb, sb, cg, sg);
    } else if i0 == 1 && i1 == 2 && i2 == 0 {
      ReadingYZX(b, ca, sa, cb, sb, cg, sg);
    } else if i0 == 1 && i1 == 2 && i2 == 1 {
      ReadingYZY(b, ca, sa, cb, sb, cg, sg);
    } else if i0 == 2 && i1 == 0 && i2 == 1 {
      ReadingZXY(b, ca, sa, cb, sb, cg, sg);
    } else if i0 == 2 && i1 == 0 && i2 == 2 {
      ReadingZXZ(b, ca, sa, cb, sb, cg, sg);
    } else if i0 == 2 && i1 == 1 && i2 == 0 {
      ReadingZYX(b, ca, sa, cb, sb, cg, sg);
    } else {
      ReadingZYZ(b, ca, sa, cb, sb, cg, sg);
    }
  }

  /** `matrix_to_euler_angles` undoes `euler_angles_to_matrix` up to the
      final `atan2`, `asin` and `acos`: for every one of the twelve
      conventions it hands each outer angle's sine and cosine, scaled by the
      same factor (`cos β` for Tait-Bryan, `sin β` for proper conventions),
      to `atan2`, and the middle angle's sine or cosine to `asin` or
      `acos`. */
  lemma {:induction false} MatrixToEulerAnglesReadsAngles(b: ComputeBackend, anglesShape: seq<nat>, matrixShape: seq<nat>, angles: Vec3, c: string)
    requires AnglesShapeOk(anglesShape) && MatrixToQuaternion.CheckMatrixShape(matrixShape).Ok? && c in Conventions
    ensures EulerAnglesToMatrix(b, anglesShape, angles, c).Ok?
    ensures MatrixToEulerAngles(b, matrixShape, EulerAnglesToMatrix(b, anglesShape, angles, c).value, c)
         == Ok(EulerReading(b, c[0] != c[2], b.cos(angles.x), b.sin(angles.x), b.cos(angles.y), b.sin(angles.y),
                 b.cos(angles.z), b.sin(angles.z)))
  {
    var ca, sa, cb, sb, cg, sg := b.cos(angles.x), b.sin(angles.x), b.cos(angles.y), b.sin(angles.y), b.cos(angles.z), b.sin(angles.z);
    var i0, i1, i2 := AxisOf(c, 0), AxisOf(c, 1), AxisOf(c, 2);
    EulerAnglesToMatrixByIndex(b, anglesShape, angles, c);
    var m := AxisProduct(i0, i1, i2, ca, sa, cb, sb, cg, sg);
    MatrixToEulerAnglesByIndex(b, matrixShape, m, c);
    ConventionIndices(c);
    ReadingByIndex(b, i0, i1, i2, ca, sa, cb, sb, cg, sg);
  }
}
