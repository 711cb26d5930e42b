# xbarray rotation conversions, backend names and nested-array helpers in Dafny

This project models three parts of xbarray and proves properties about them.

1. **The rotation-representation algebra** of
   `xbarray/transformations/rotation_conversions/base.py`, covering:
   - the Hamilton product;
   - inversion of a versor (a unit quaternion);
   - sign standardisation and the standardized product;
   - `_copysign`;
   - `quaternion_apply`;
   - the quaternion → matrix and matrix → quaternion conversions;
   - the elementary axis rotations and Euler-angle conversions;
   - the 6D representation.
2. **The backend-module naming** of `xbarray/_src/serialization/serialization_map.py`.
3. **The nested-structure helpers** `map_fn_over_arrays` and `abbreviate_array`, from
   `xbarray/backends/_implementations/_common/implementations.py` and
   `xarray/common/implementations.py`.

How the model represents things:
- **Batches.** Every array function of `base.py` is modelled on one batch element. A quaternion is a `Quat(w, x, y, z)` (real part first), a matrix is a `Mat3` of three rows, and a triple of angles is a `Vec3`.
- **Backend functions.** `sqrt`, `sin`, `cos`, `asin`, `acos` and `atan2` come from a `ComputeBackend` value, which the source also passes to every function. A lemma that needs one of their properties states it as a precondition. The properties used are `SqrtSound` (the root of a non-negative number is non-negative and squares back) and `Pythagorean` (`sin² + cos² = 1`).
- **Input shapes.** Shape checks take the input's shape as a `seq<nat>`.
- **Exceptions.** Each raised exception is an `Err` of the `PyErrors.Result` type, and carries the message the source writes where that matters.
- **Modules.** Each module follows one part of the source:
  - `Quaternions` holds the quaternion algebra and `quaternion_apply`;
  - `QuaternionMatrix` holds `quaternion_to_matrix`;
  - `MatrixToQuaternion` holds `matrix_to_quaternion`;
  - `EulerAngles` holds the axis rotations, the convention checks, `euler_angles_to_matrix` and `matrix_to_euler_angles`;
  - `Rotation6d` holds `matrix_to_rotation_6d`;
  - `SerializationMap`, `NestedMap` and `Abbreviate` hold the other three core files;
  - `LinearAlgebra` and `Backend` supply the 3×3 algebra and the real-number helpers they share.
- **`abbreviate_array`.** Its `for dim_i` loop reassigns the working array, so it is an imperative `method` whose loop invariant ties the working array to the specification function `CollapseUpTo`. Both copies of `abbreviate_array` have the same body, so one method models both.

## Model

| member | source | states |
|---|---|---|
| Quaternions.Neg | xbarray/transformations/rotation_conversions/base.py:411 | `-quaternions`, negating all four components. It has no contract of its own; StandardizeOfNeg, RawMultiplyOfNeg and MultiplySignInvariant state what negation does to standardizing and to the products |
| Quaternions.Standardize | xbarray/transformations/rotation_conversions/base.py:396-411 | The result is `q` or `-q`, its real part is non-negative, and it is `q` itself whenever the real part of `q` already is |
| Quaternions.StandardizeIdempotent | xbarray/transformations/rotation_conversions/base.py:411 | Standardizing a standardized quaternion changes nothing |
| Quaternions.StandardizeOfNeg | xbarray/transformations/rotation_conversions/base.py:411 | `q` and `-q` standardize to the same quaternion when the real part is nonzero |
| Quaternions.StandardizeNormSq | xbarray/transformations/rotation_conversions/base.py:411 | Standardizing keeps the squared norm |
| Quaternions.RawMultiply | xbarray/transformations/rotation_conversions/base.py:414-436 | `quaternion_raw_multiply`, the Hamilton product. It has no contract of its own; RawMultiplyIdentity, RawMultiplyAssociative, NormSqMultiplicative and RawMultiplyOfNeg state that it is the associative, norm-multiplying quaternion product with identity `(1, 0, 0, 0)` |
| Quaternions.RawMultiplyIdentity | xbarray/transformations/rotation_conversions/base.py:430-436 | `(1, 0, 0, 0)` is a two-sided identity of the Hamilton product |
| Quaternions.RawMultiplyAssociative | xbarray/transformations/rotation_conversions/base.py:430-436 | The Hamilton product is associative |
| Quaternions.NormSqMultiplicative | xbarray/transformations/rotation_conversions/base.py:430-436 | The squared norm of a product is the product of the squared norms |
| Quaternions.RawMultiplyOfNeg | xbarray/transformations/rotation_conversions/base.py:430-436 | Negating either factor negates the product |
| Quaternions.Multiply | xbarray/transformations/rotation_conversions/base.py:439-457 | `quaternion_multiply` is the raw product or its negation, with a non-negative real part |
| Quaternions.MultiplyVersors | xbarray/transformations/rotation_conversions/base.py:439-457 | The standardized product of two versors is a versor |
| Quaternions.MultiplySignInvariant | xbarray/transformations/rotation_conversions/base.py:439-457 | Flipping the sign of either factor leaves `quaternion_multiply` unchanged when the raw product has a nonzero real part |
| Quaternions.Invert | xbarray/transformations/rotation_conversions/base.py:460-481 | `quaternion_invert`, the product with `[1, -1, -1, -1]`. It has no contract of its own; InvertInvolution, InvertProducts, InvertOfVersor and InvertOfProduct state that it is the inverse of a versor and reverses products |
| Quaternions.InvertInvolution | xbarray/transformations/rotation_conversions/base.py:477-481 | Inverting twice gives the quaternion back |
| Quaternions.InvertProducts | xbarray/transformations/rotation_conversions/base.py:460-481 | `q q⁻¹` and `q⁻¹ q` both equal `(|q|², 0, 0, 0)` |
| Quaternions.InvertOfVersor | xbarray/transformations/rotation_conversions/base.py:464-481 | For a versor, as the docstring requires, `q q⁻¹ = q⁻¹ q = (1, 0, 0, 0)` |
| Quaternions.InvertOfProduct | xbarray/transformations/rotation_conversions/base.py:460-481 | The inverse of a product is the product of the inverses in reverse order |
| Quaternions.Copysign | xbarray/transformations/rotation_conversions/base.py:92-93 | The result has the magnitude of `a`; when `a` is nonzero it is negative exactly when `b` is; a zero `a` stays zero |
| Quaternions.CheckPointShape | xbarray/transformations/rotation_conversions/base.py:500-501 | A point passes exactly when it has a last dimension and that dimension is 3. A 0-d point raises IndexError (`point.shape[-1]`), and any other last dimension raises the source's ValueError `Points are not in 3D` |
| Quaternions.Conjugated | xbarray/transformations/rotation_conversions/base.py:503-508 | `q p q⁻¹`, the two products of `quaternion_apply` as intended. It has no contract of its own; ConjugatedIsPure and ConjugatedPreservesNorm state that it is a pure quaternion with the length of `p` when `q` is a versor |
| Quaternions.ConjugatedIsPure | xbarray/transformations/rotation_conversions/base.py:503-508 | `q p q⁻¹` has real part 0, so `out[..., 1:]` loses nothing |
| Quaternions.ConjugatedPreservesNorm | xbarray/transformations/rotation_conversions/base.py:503-508 | For a versor, the rotated point has the length of the original |
| Quaternions.QuaternionApplyAsWritten | xbarray/transformations/rotation_conversions/base.py:500-507 | As written, no call returns a point: a badly shaped point raises the shape check's error (IndexError or ValueError), and every well-shaped point raises TypeError |
| Quaternions.QuaternionApply | xbarray/transformations/rotation_conversions/base.py:500-508 | Succeeds exactly when the point shape passes, and otherwise raises the shape check's error; the result, with real part 0, is `q p q⁻¹` |
| Quaternions.QuaternionApplyDiscrepancy | xbarray/transformations/rotation_conversions/base.py:504-507 | On a well-shaped point the code as written raises TypeError where the intended code returns the rotated point |
| QuaternionMatrix.TwoS | xbarray/transformations/rotation_conversions/base.py:53 | `two_s = 2 / |q|²`. It has no contract of its own; TwoSTimesNormSq states that `two_s |q|² = 2`, the fact every matrix lemma below rests on |
| QuaternionMatrix.TwoSTimesNormSq | xbarray/transformations/rotation_conversions/base.py:53 | For nonzero `q`, `two_s` times `|q|²` is 2 |
| QuaternionMatrix.QuaternionToMatrix | xbarray/transformations/rotation_conversions/base.py:37-71 | The stacked nine entries of `quaternion_to_matrix`. It has no contract of its own; QuaternionToMatrixIsRotation, QuaternionToMatrixOrthogonal, RowsOrthonormal, TransposeIsInverse, QuaternionToMatrixScaleInvariant and QuaternionToMatrixOfOne state that it is a rotation, inverted by the transpose, that depends only on the direction of `q` |
| QuaternionMatrix.QuaternionToMatrixOfOne | xbarray/transformations/rotation_conversions/base.py:51-71 | `(1, 0, 0, 0)` maps to the identity matrix |
| QuaternionMatrix.QuaternionToMatrixScaleInvariant | xbarray/transformations/rotation_conversions/base.py:51-71 | `c q` gives the same matrix as `q` for every nonzero real `c`, `-1` included, because `two_s = 2 / |q|²` |
| QuaternionMatrix.RowsOrthonormal | xbarray/transformations/rotation_conversions/base.py:51-71 | For nonzero `q` the rows of the matrix are orthonormal: `M Mᵀ = I` |
| QuaternionMatrix.TransposeIsInverse | xbarray/transformations/rotation_conversions/base.py:51-71 | The transpose of the matrix of `q` is the matrix of `quaternion_invert(q)` |
| QuaternionMatrix.QuaternionToMatrixOrthogonal | xbarray/transformations/rotation_conversions/base.py:51-71 | For nonzero `q` the matrix is orthogonal both ways round |
| QuaternionMatrix.ScaledMatrixDet | xbarray/transformations/rotation_conversions/base.py:53-68 | Whenever the scale times `|q|²` is 2, the determinant of the stacked matrix is 1 |
| QuaternionMatrix.QuaternionToMatrixIsRotation | xbarray/transformations/rotation_conversions/base.py:37-71 | For every nonzero `q` the matrix is a rotation: orthogonal, with determinant 1, so never a reflection |
| MatrixToQuaternion.CheckMatrixShape | xbarray/transformations/rotation_conversions/base.py:116-117 | Passes exactly when the two trailing dimensions are 3 × 3; IndexError exactly when indexing the shape fails first; every other error is the source's ValueError `Invalid rotation matrix shape` |
| MatrixToQuaternion.SqrtPositivePartAsWritten | xbarray/transformations/rotation_conversions/base.py:95-102 | `_sqrt_positive_part` as written, which raises UnboundLocalError for every argument because `ret` is read before it is assigned. It has no contract of its own; MatrixToQuaternionAsWritten and MatrixToQuaternionDiscrepancy carry that error to `matrix_to_quaternion` |
| MatrixToQuaternion.SqrtPositivePart | xbarray/transformations/rotation_conversions/base.py:95-102 | Zero for every non-positive argument |
| MatrixToQuaternion.SqrtPositivePartIsRoot | xbarray/transformations/rotation_conversions/base.py:95-102 | Given a sound `sqrt`, the result is non-negative and its square is `max(x, 0)` |
| MatrixToQuaternion.FirstArgmax | array_api_typing/typing_2024_12/_api_typing.py:4800-4807 | The index of a maximum, and the first one when the maximum occurs more than once |
| MatrixToQuaternion.MatrixToQuaternion | xbarray/transformations/rotation_conversions/base.py:116-164 | Succeeds exactly when the shape check passes, raises the shape check's error otherwise, and returns a quaternion with non-negative real part |
| MatrixToQuaternion.MatrixToQuaternionAsWritten | xbarray/transformations/rotation_conversions/base.py:101 | As written, every call fails, and every well-shaped matrix raises UnboundLocalError |
| MatrixToQuaternion.MatrixToQuaternionDiscrepancy | xbarray/transformations/rotation_conversions/base.py:101 | On a 3 × 3 matrix the code as written raises where the intended code succeeds |
| MatrixToQuaternion.QAbs | xbarray/transformations/rotation_conversions/base.py:122-133 | `q_abs`, the positive-part roots of the four diagonal combinations. It has no contract of its own; QAbsOfUnit and ArgmaxOfMagnitudes state that for the matrix of a versor it holds twice the component magnitudes and its argmax names a largest component |
| MatrixToQuaternion.QuatByRijk | xbarray/transformations/rotation_conversions/base.py:136-152 | `quat_by_rijk`, the four rows built from `q_abs` and the off-diagonal entries. It has no contract of its own; RowsOfUnit states that for the matrix of a versor row `k` is `4 q_k q` |
| MatrixToQuaternion.QAbsOfUnit | xbarray/transformations/rotation_conversions/base.py:122-133 | For the matrix of a versor, `q_abs` is `2|w|, 2|x|, 2|y|, 2|z|` |
| MatrixToQuaternion.RowsOfUnit | xbarray/transformations/rotation_conversions/base.py:136-152 | For the matrix of a versor, row `k` of `quat_by_rijk` is `4 q_k q` |
| MatrixToQuaternion.Candidate | xbarray/transformations/rotation_conversions/base.py:156 | `quat_candidates[k]`, row `k` divided by `2 max(q_abs[k], 0.1)`. It has no contract of its own; DivideScaled, CandidateOfUnit and PickedCandidate state that the well-conditioned candidates are `q` or `-q` |
| MatrixToQuaternion.CandidateOfUnit | xbarray/transformations/rotation_conversions/base.py:136-156 | For the matrix of a versor and a component of magnitude at least 1/2, candidate `k` is `q` when that component is non-negative and `-q` otherwise |
| MatrixToQuaternion.DivideScaled | xbarray/transformations/rotation_conversions/base.py:156 | Dividing `4 v q` by `2 max(2|v|, 0.1)` gives `q` or `-q` (by the sign of `v`) once `|v| ≥ 1/2` |
| MatrixToQuaternion.ArgmaxOfMagnitudes | xbarray/transformations/rotation_conversions/base.py:160 | The argmax of `q_abs` names a component of largest magnitude |
| MatrixToQuaternion.LargestComponent | xbarray/transformations/rotation_conversions/base.py:160-163 | The largest component of a versor has magnitude at least 1/2, so the 0.1 floor never applies to the picked row |
| MatrixToQuaternion.PickedCandidate | xbarray/transformations/rotation_conversions/base.py:156-163 | The candidate the argmax picks is `q` or `-q` |
| MatrixToQuaternion.MatrixToQuaternionInverts | xbarray/transformations/rotation_conversions/base.py:116-164 | For a versor `q` and a well-shaped input, the conversion returns `q` or `-q` with non-negative real part, and exactly `standardize(q)` when the real part is nonzero |
| EulerAngles.IndexFromLetter | xbarray/transformations/rotation_conversions/base.py:272-279 | X, Y, Z map to 0, 1, 2; every other string raises ValueError with the source's message |
| EulerAngles.ElementaryRotation | xbarray/transformations/rotation_conversions/base.py:184-194 | The `R_flat` of `_axis_angle_rotation` for axis index 0, 1 or 2. It has no contract of its own; ElementaryRotationFixesAxis, ElementaryRotationIsRotation and ElementaryRotationSum state that it fixes its axis, is a rotation, and composes by adding angles |
| EulerAngles.ElementaryRotationSum | xbarray/transformations/rotation_conversions/base.py:189-194 | By the angle-addition formulas, the rotations by two angles about one axis compose to the rotation by their sum |
| EulerAngles.AxisAngleRotation | xbarray/transformations/rotation_conversions/base.py:184-196 | Succeeds exactly for X, Y and Z; any other letter raises ValueError with the source's message |
| EulerAngles.AxisAngleRotationByIndex | xbarray/transformations/rotation_conversions/base.py:189-194 | Each letter builds the elementary rotation about the axis of its index |
| EulerAngles.ElementaryRotationFixesAxis | xbarray/transformations/rotation_conversions/base.py:189-194 | Each elementary matrix fixes its own basis vector, as a column and as a row |
| EulerAngles.AxisAngleRotationFixesAxis | xbarray/transformations/rotation_conversions/base.py:184-201 | The matrix for a letter fixes that letter's axis vector for every angle |
| EulerAngles.ElementaryRotationIsRotation | xbarray/transformations/rotation_conversions/base.py:189-194 | Given `cos² + sin² = 1`, each elementary matrix is orthogonal with determinant 1 |
| EulerAngles.AxisAngleRotationIsRotation | xbarray/transformations/rotation_conversions/base.py:184-201 | Given `sin² + cos² = 1` at the angle, `_axis_angle_rotation` gives a rotation |
| EulerAngles.AxisAngleRotationSum | xbarray/transformations/rotation_conversions/base.py:184-201 | Given the angle-addition formulas, the rotations by `t` and `u` about one axis compose to the rotation by `t + u` |
| EulerAngles.FirstInvalidLetter | xbarray/transformations/rotation_conversions/base.py:225-227 | The validation loop stops at the first character that is not X, Y or Z, or runs to the end |
| EulerAngles.ConventionsAreStructural | xbarray/transformations/rotation_conversions/base.py:221-227 | The twelve conventions are exactly the three-letter strings over X, Y, Z whose middle letter differs from both neighbours |
| EulerAngles.ValidateConvention | xbarray/transformations/rotation_conversions/base.py:221-227 | Accepts exactly the twelve conventions. Each error is a ValueError with the source's message, checked in the source's order: length, then middle letter, then the first invalid letter |
| EulerAngles.ConventionLetters | xbarray/transformations/rotation_conversions/base.py:225-229 | Every letter of an accepted convention is a valid axis label, so the matrix list never raises |
| EulerAngles.EulerAnglesToMatrix | xbarray/transformations/rotation_conversions/base.py:219-233 | Succeeds exactly for a last dimension of 3 and a valid convention. The angles check comes first, then the convention's own errors |
| EulerAngles.EulerAnglesToMatrixApply | xbarray/transformations/rotation_conversions/base.py:228-233 | The result applied to a vector is `R0 (R1 (R2 v))`, with `Rk` the rotation by angle `k` about letter `k` |
| EulerAngles.EulerAnglesToMatrixByIndex | xbarray/transformations/rotation_conversions/base.py:228-233 | The result is the product of the elementary rotations about the convention's axis indices |
| EulerAngles.EulerAnglesToMatrixIsRotation | xbarray/transformations/rotation_conversions/base.py:228-233 | Given `sin² + cos² = 1` at each angle, the result is a rotation |
| EulerAngles.EvenPairCyclic | xbarray/transformations/rotation_conversions/base.py:264 | `even` holds exactly when the other axis is the next axis cyclically |
| EulerAngles.TanIndicesCyclic | xbarray/transformations/rotation_conversions/base.py:261 | The index table maps axis `i` to `(i + 2, i + 1)` modulo 3 |
| EulerAngles.TanArguments | xbarray/transformations/rotation_conversions/base.py:261-269 | The lookup succeeds exactly for X, Y, Z and raises KeyError otherwise |
| EulerAngles.TanArgumentsCyclic | xbarray/transformations/rotation_conversions/base.py:261-269 | Matches the index form for every pair of labels and flag values: the index pair (swapped when `horizontal`), no negation when `horizontal == even`, else the negation fixed by `tait_bryan` |
| EulerAngles.AngleFromTan | xbarray/transformations/rotation_conversions/base.py:261-269 | Succeeds exactly for X, Y, Z and raises KeyError otherwise |
| EulerAngles.MatrixToEulerAngles | xbarray/transformations/rotation_conversions/base.py:296-327 | Succeeds exactly for a valid convention and a 3 × 3 trailing shape. The convention errors come first, then the shape error |
| EulerAngles.CentralAngle | xbarray/transformations/rotation_conversions/base.py:305-314 | The middle angle: the clipped `asin` of `m[i0][i2]`, negated when `i0 - i2` is -1 or 2, for Tait-Bryan conventions, else the clipped `acos` of `m[i0][i0]`. It has no contract of its own; ReadingByIndex and MatrixToEulerAnglesReadsAngles state what it reads from a product of elementary rotations |
| EulerAngles.ReadAngles | xbarray/transformations/rotation_conversions/base.py:305-327 | The three angles past the checks, from the axis indices. It has no contract of its own; MatrixToEulerAnglesByIndex ties it to `matrix_to_euler_angles`, and ReadingByIndex states what it reads for every admissible index triple |
| EulerAngles.MatrixToEulerAnglesByIndex | xbarray/transformations/rotation_conversions/base.py:305-327 | Past the checks, the angles are read with `i0`, `i2` from the letters and `tait_bryan = i0 ≠ i2` |
| EulerAngles.ConventionIndices | xbarray/transformations/rotation_conversions/base.py:305-307 | The middle axis index differs from both outer ones, and the outer ones differ exactly when the outer letters do |
| EulerAngles.ReadingByIndex | xbarray/transformations/rotation_conversions/base.py:305-327 | For the product of the three elementary rotations about every admissible index triple, the reading is `atan2(k sin, k cos)` for the outer angles (`k` the cosine, Tait-Bryan, or sine, proper, of the middle angle) and the `asin`/`acos` of the clipped middle sine or cosine |
| EulerAngles.MatrixToEulerAnglesReadsAngles | xbarray/transformations/rotation_conversions/base.py:296-327 | `matrix_to_euler_angles` applied to `euler_angles_to_matrix` of the same convention reads each angle through its own sine and cosine, as `ReadingByIndex` describes, for all twelve conventions |
| Rotation6d.MatrixToRotation6d | xbarray/transformations/rotation_conversions/base.py:711-712 | Six entries, entry `k` being `m[k / 3][k % 3]`: the first two rows, row-major |
| Rotation6d.Rotation6dRows | xbarray/transformations/rotation_conversions/base.py:711-712 | The first three entries are row 0 and the last three are row 1 |
| Rotation6d.Rotation6dDeterminesRotation | xbarray/transformations/rotation_conversions/base.py:696-698 | Two rotation matrices with the same 6D representation are equal: the dropped row is determined |
| SerializationMap.RemainderStartsWithDot | xbarray/_src/serialization/serialization_map.py:18 | After the prefix check, the stripped remainder always begins with `'.'` |
| SerializationMap.ImplementationModuleToNameAsWritten | xbarray/_src/serialization/serialization_map.py:14-21 | As written, every module name is rejected with the source's ValueError, so the `return` is unreachable |
| SerializationMap.NumpyRejectedAsWritten | xbarray/_src/serialization/serialization_map.py:18-20 | `xbarray.implementations.numpy` is rejected as written and maps to `numpy` once corrected |
| SerializationMap.ImplementationModuleToName | xbarray/_src/serialization/serialization_map.py:14-21 | Succeeds exactly for names with the prefix and no further `'.'`. The error is the source's ValueError. A returned name has no `'.'` and is the suffix that completes the module name |
| SerializationMap.ImplementationModuleToNameOfModuleName | xbarray/_src/serialization/serialization_map.py:14-21 | Every dot-free name round-trips: the module `xbarray.implementations.<name>` maps back to `<name>` |
| NestedMap.MapFnOverArrays | xbarray/backends/_implementations/_common/implementations.py:48-61 | `map_fn_over_arrays`. It has no contract of its own; MapFnOverArraysLeaves, MapFnOverArraysStructure, MapFnOverArraysIdentity and MapFnOverArraysCompose state that `func` is applied exactly at the array leaves and the rest is rebuilt unchanged |
| NestedMap.MapFnOverArraysLeaves | xbarray/backends/_implementations/_common/implementations.py:52-61 | The arrays of the result, left to right, are `func` of the arrays of the input: `func` is applied exactly at the array leaves |
| NestedMap.MapFnOverArraysStructure | xbarray/backends/_implementations/_common/implementations.py:54-61 | The result has the same container kinds (dict, tuple or list), dict keys, lengths and non-array leaves at every level |
| NestedMap.MapFnOverArraysIdentity | xbarray/backends/_implementations/_common/implementations.py:48-61 | With the identity function the input comes back unchanged |
| NestedMap.MapFnOverArraysCompose | xbarray/backends/_implementations/_common/implementations.py:48-61 | Mapping `f` and then `g` equals mapping their composition |
| Abbreviate.TakeFirst | xarray/common/implementations.py:12 | `take(abbr_array, zeros(1), axis=dim_i)`. It has no contract of its own; TakeFirstShape states its shape and first element, and ConstantSlices and CollapseLossless relate it to the array |
| Abbreviate.EqualsFirstSlice | xarray/common/implementations.py:13 | `all(abbr_array == first_elem)`. It has no contract of its own; ConstantSlices states that it holds on every axis of a constant array, and CollapseStepShape states what passing it does to the shape |
| Abbreviate.CollapseUpTo | xarray/common/implementations.py:11-16 | The working array after the first `n` iterations of the loop. It has no contract of its own; CollapseInvariant, CollapsesToOneIffConstant and the loop invariant of AbbreviateArray give it meaning |
| Abbreviate.ConstantSlices | xarray/common/implementations.py:12-13 | In an array whose elements are all `v`, every axis passes the test and its first slice is again all `v` |
| Abbreviate.CollapseLossless | xarray/common/implementations.py:12-14 | Cutting an axis that passes the test loses no element: if the first slice is all `v`, so was the array |
| Abbreviate.TakeFirstShape | xbarray/backends/_implementations/_common/implementations.py:25 | `take(a, [0], axis=d)` keeps the rank, sets dimension `d` to 1, and keeps the first element |
| Abbreviate.CollapseStepShape | xbarray/backends/_implementations/_common/implementations.py:24-29 | One iteration sets dimension `dim_i` to 1 exactly when every slice along it equals the first slice; every other dimension keeps its size |
| Abbreviate.CollapseInvariant | xarray/common/implementations.py:11-16 | The loop keeps the array rectangular and non-empty and keeps its first element. The array is all `v` before the loop exactly when it is all `v` after |
| Abbreviate.CollapsesToOneIffConstant | xarray/common/implementations.py:11-18 | After the loop every dimension is 1 exactly when all elements of the input are equal |
| Abbreviate.CastScalar | xarray/common/implementations.py:19-27 | Raises ValueError exactly for a dtype that is not real floating, real integer or boolean; otherwise returns the element with the conversion of the first matching predicate: `float` for real floating, `int` for real integer, `bool` for boolean |
| Abbreviate.AbbreviateArray | xarray/common/implementations.py:4-29 | Without `try_cast_scalar`, returns the original array. With it, returns the cast element when all elements are equal, and `None` (the function falls off its end) when they are not. So the docstring's other promise, a smaller array with the same number of dimensions, is never kept: the abbreviated working array is never returned (its shape is what CollapseStepShape and CollapseInvariant describe). The factory-built copy in `_common/implementations.py` (lines 17-42) has the same body |

## Left out

- `random_quaternions`, `random_rotations` and `random_rotation` depend on random-number generation. `random_quaternions` also divides the `(rng, array)` pair returned by `random_normal` as if it were an array (base.py:348).
- `rotation_6d_to_matrix` divides by square-root norms (Gram–Schmidt). The axis-angle and `sinc` functions depend on floating-point tolerances. `matrix_to_axis_angle` also writes into a buffer through masks. None of these is modelled.
- `name_to_implementation_module` only calls `importlib`. The model keeps its naming rule as `SerializationMap.ModuleNameOf`.
- **Floating point.** The model uses exact reals. NaN, infinities, rounding and the `1e-5`-style tolerances are not modelled.
- **Trigonometric functions.** `atan2`, `asin` and `acos` are left uninterpreted: their ranges and their inverse relation to `sin` and `cos` need real analysis.
- **Broadcasting and batching.** Each function is modelled on one batch element. Shapes appear only in the checks.
- **Error messages that embed runtime values.** The message strings that embed the offending shape (`{matrix.shape}`, `{point.shape}`) or dtype (`{elem.dtype}`) are modelled without that value.
- **Backend calls.** `.dim()` and `.size(-1)` are modelled as the rank and the trailing dimensions of a shape.
- **`abbreviate_array` types.** The dtype is a single tag for the whole array, as the backend's three predicates classify it. The Python conversions `float`, `int` and `bool` become constructors that record which conversion applies. The `is_backendarray` test of `map_fn_over_arrays` becomes the `Array` constructor of the nested-data type.
- NestedMap.MapFnOverArraysStructure: speaks of the three kinds dict, tuple and list only. The source tests them with `isinstance` and rebuilds a subclass as the plain kind: an `OrderedDict` comes back as a `dict`, and a `namedtuple` as a `tuple` (xbarray/backends/_implementations/_common/implementations.py:54-59). `NestedMap.Data` has no subclasses, so the model does not capture that loss of type.
- EulerAngles.MatrixToEulerAnglesReadsAngles: states what the conversion reads (atan2 of the scaled sine and cosine, asin/acos of the clipped middle value), not that it returns the original angles. Recovering the angles needs the ranges of the trigonometric functions, which are uninterpreted.
- Abbreviate.AbbreviateArray: requires every dimension of the input to be non-empty. On an empty dimension `take(..., zeros(1), axis=dim_i)` reads out of bounds, which the array API leaves unspecified (array_api_typing/typing_2024_12/_api_typing.py:4187).
- MatrixToQuaternion.MatrixToQuaternionInverts: covers matrices of versors only. The source's conversion is meant for rotation matrices, and every rotation matrix is the matrix of a versor. That last fact is not proved here.

## Findings

| source | as written | input that shows it | evidently intended | confidence | as-written member | corrected member |
|---|---|---|---|---|---|---|
| xbarray/transformations/rotation_conversions/base.py:101 | `_sqrt_positive_part` reads `ret` on the right-hand side before it is assigned, so it raises UnboundLocalError, and so does every `matrix_to_quaternion` call past the shape check | any 3 × 3 matrix, e.g. the identity | `sqrt(max(x, 0))` | not executed | MatrixToQuaternion.MatrixToQuaternionDiscrepancy | MatrixToQuaternion.MatrixToQuaternionInverts |
| xbarray/transformations/rotation_conversions/base.py:504-507 | The outer `quaternion_raw_multiply` call passes the inner product as `backend` and the inverse as `a`, and leaves out `b`, so it raises TypeError | any quaternion and a point of shape `(3,)` | `quaternion_raw_multiply(backend, quaternion_raw_multiply(backend, q, p), quaternion_invert(backend, q))` | not executed | Quaternions.QuaternionApplyDiscrepancy | Quaternions.QuaternionApply |
| xbarray/_src/serialization/serialization_map.py:18 | The prefix stripped is `"xbarray.implementations"` without the trailing dot, so the remainder starts with `'.'` and is always rejected at line 19 | the module `xbarray.implementations.numpy` | strip `"xbarray.implementations."` and return `numpy` | not executed | SerializationMap.NumpyRejectedAsWritten | SerializationMap.ImplementationModuleToNameOfModuleName |
