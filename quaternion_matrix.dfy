/** `quaternion_to_matrix` (base.py): the rotation matrix of a quaternion,
    and the facts that make it one. */
module QuaternionMatrix {
  import opened Backend
  import opened LinearAlgebra
  import opened Quaternions

  /** `two_s = 2 / |q|²` */
  function TwoS(q: Quat): real
    requires NormSq(q) != 0.0
  {
    2.0 / NormSq(q)
  }

  /** `quaternion_to_matrix` for one quaternion `(r, i, j, k)`. The scale
      `2 / |q|²` makes the result depend only on the direction of `q`. */
  function QuaternionToMatrix(q: Quat): Mat3
    requires NormSq(q) != 0.0
  {
    ScaledMatrix(q.w, q.x, q.y, q.z, TwoS(q))
  }

  /** The stacked entries of `quaternion_to_matrix` for `(r, i, j, k)`, with
      `s` in place of `two_s`. */
  function ScaledMatrix(r: real, i: real, j: real, k: real, s: real): Mat3
  {
    Mat3(Vec3(1.0 - s * (j * j + k * k), s * (i * j - k * r), s * (i * k + j * r)),
         Vec3(s * (i * j + k * r), 1.0 - s * (i * i + k * k), s * (j * k - i * r)),
         Vec3(s * (i * k - j * r), s * (j * k + i * r), 1.0 - s * (i * i + j * j)))
  }

  lemma MulZero(a: real, t: real)
    requires t == 0.0
    ensures a * t == 0.0
  {
  }

  lemma TwoSTimesNormSq(q: Quat)
    requires NormSq(q) != 0.0
    ensures TwoS(q) * (q.w * q.w + q.x * q.x + q.y * q.y + q.z * q.z) == 2.0
  {
  }

  // Each entry of m mᵀ - I is a multiple of `s |q|² - 2`, which is 0.

  lemma EntryProduct00X(w: real, x: real, y: real, z: real, s: real)
    ensures ScaledMatrix(w, x, y, z, s).r0.x * ScaledMatrix(w, x, y, z, s).r0.x == (1.0 - s * (y * y + z * z)) * (1.0 - s * (y * y + z * z))
  {
  }

  lemma EntryProduct00Y(w: real, x: real, y: real, z: real, s: real)
    ensures ScaledMatrix(w, x, y, z, s).r0.y * ScaledMatrix(w, x, y, z, s).r0.y == (s * (x * y - z * w)) * (s * (x * y - z * w))
  {
  }

  lemma EntryProduct00Z(w: real, x: real, y: real, z: real, s: real)
    ensures ScaledMatrix(w, x, y, z, s).r0.z * ScaledMatrix(w, x, y, z, s).r0.z == (s * (x * z + y * w)) * (s * (x * z + y * w))
  {
  }

  lemma {:induction false} RowDot00Expanded(w: real, x: real, y: real, z: real, s: real)
    ensures Dot(ScaledMatrix(w, x, y, z, s).r0, ScaledMatrix(w, x, y, z, s).r0)
         == (1.0 - s * (y * y + z * z)) * (1.0 - s * (y * y + z * z)) + (s * (x * y - z * w)) * (s * (x * y - z * w)) + (s * (x * z + y * w)) * (s * (x * z + y * w))
  {
    EntryProduct00X(w, x, y, z, s);
    EntryProduct00Y(w, x, y, z, s);
    EntryProduct00Z(w, x, y, z, s);
    DotOfProducts(ScaledMatrix(w, x, y, z, s).r0, ScaledMatrix(w, x, y, z, s).r0, (1.0 - s * (y * y + z * z)) * (1.0 - s * (y * y + z * z)), (s * (x * y - z * w)) * (s * (x * y - z * w)), (s * (x * z + y * w)) * (s * (x * z + y * w)));
  }

  lemma RowDot00Factored(w: real, x: real, y: real, z: real, s: real)
    ensures (1.0 - s * (y * y + z * z)) * (1.0 - s * (y * y + z * z)) + (s * (x * y - z * w)) * (s * (x * y - z * w)) + (s * (x * z + y * w)) * (s * (x * z + y * w))
         == 1.0 + s * (y * y + z * z) * (s * (w * w + x * x + y * y + z * z) - 2.0)
  {
  }

  lemma {:induction false} RowDot00Identity(w: real, x: real, y: real, z: real, s: real)
    requires s * (w * w + x * x + y * y + z * z) == 2.0
    ensures (1.0 - s * (y * y + z * z)) * (1.0 - s * (y * y + z * z)) + (s * (x * y - z * w)) * (s * (x * y - z * w)) + (s * (x * z + y * w)) * (s * (x * z + y * w)) == 1.0
  {
    RowDot00Factored(w, x, y, z, s);
    MulZero(s * (y * y + z * z), s * (w * w + x * x + y * y + z * z) - 2.0);
  }

  lemma {:induction false} RowDot00(w: real, x: real, y: real, z: real, s: real)
    requires s * (w * w + x * x + y * y + z * z) == 2.0
    ensures Dot(ScaledMatrix(w, x, y, z, s).r0, ScaledMatrix(w, x, y, z, s).r0) == 1.0
  {
    RowDot00Expanded(w, x, y, z, s);
    RowDot00Identity(w, x, y, z, s);
  }

  lemma EntryProduct01X(w: real, x: real, y: real, z: real, s: real)
    ensures ScaledMatrix(w, x, y, z, s).r0.x * ScaledMatrix(w, x, y, z, s).r1.x == (1.0 - s * (y * y + z * z)) * (s * (x * y + z * w))
  {
  }

  lemma EntryProduct01Y(w: real, x: real, y: real, z: real, s: real)
    ensures ScaledMatrix(w, x, y, z, s).r0.y * ScaledMatrix(w, x, y, z, s).r1.y == (s * (x * y - z * w)) * (1.0 - s * (x * x + z * z))
  {
  }

  lemma EntryProduct01Z(w: real, x: real, y: real, z: real, s: real)
    ensures ScaledMatrix(w, x, y, z, s).r0.z * ScaledMatrix(w, x, y, z, s).r1.z == (s * (x * z + y * w)) * (s * (y * z - x * w))
  {
  }

  lemma {:induction false} RowDot01Expanded(w: real, x: real, y: real, z: real, s: real)
    ensures Dot(ScaledMatrix(w, x, y, z, s).r0, ScaledMatrix(w, x, y, z, s).r1)
         == (1.0 - s * (y * y + z * z)) * (s * (x * y + z * w)) + (s * (x * y - z * w)) * (1.0 - s * (x * x + z * z)) + (s * (x * z + y * w)) * (s * (y * z - x * w))
  {
    EntryProduct01X(w, x, y, z, s);
    EntryProduct01Y(w, x, y, z, s);
    EntryProduct01Z(w, x, y, z, s);
    DotOfProducts(ScaledMatrix(w, x, y, z, s).r0, ScaledMatrix(w, x, y, z, s).r1, (1.0 - s * (y * y + z * z)) * (s * (x * y + z * w)), (s * (x * y - z * w)) * (1.0 - s * (x * x + z * z)), (s * (x * z + y * w)) * (s * (y * z - x * w)));
  }

  lemma RowDot01Factored(w: real, x: real, y: real, z: real, s: real)
    ensures (1.0 - s * (y * y + z * z)) * (s * (x * y + z * w)) + (s * (x * y - z * w)) * (1.0 - s * (x * x + z * z)) + (s * (x * z + y * w)) * (s * (y * z - x * w))
         == s * (x * y) * (2.0 - s * (w * w + x * x + y * y + z * z))
  {
  }

  lemma {:induction false} RowDot01Identity(w: real, x: real, y: real, z: real, s: real)
    requires s * (w * w + x * x + y * y + z * z) == 2.0
    ensures (1.0 - s * (y * y + z * z)) * (s * (x * y + z * w)) + (s * (x * y - z * w)) * (1.0 - s * (x * x + z * z)) + (s * (x * z + y * w)) * (s * (y * z - x * w)) == 0.0
  {
    RowDot01Factored(w, x, y, z, s);
    MulZero(s * (x * y), 2.0 - s * (w * w + x * x + y * y + z * z));
  }

  lemma {:induction false} RowDot01(w: real, x: real, y: real, z: real, s: real)
    requires s * (w * w + x * x + y * y + z * z) == 2.0
    ensures Dot(ScaledMatrix(w, x, y, z, s).r0, ScaledMatrix(w, x, y, z, s).r1) == 0.0
  {
    RowDot01Expanded(w, x, y, z, s);
    RowDot01Identity(w, x, y, z, s);
  }

  lemma EntryProduct02X(w: real, x: real, y: real, z: real, s: real)
    ensures ScaledMatrix(w, x, y, z, s).r0.x * ScaledMatrix(w, x, y, z, s).r2.x == (1.0 - s * (y * y + z * z)) * (s * (x * z - y * w))
  {
  }

  lemma EntryProduct02Y(w: real, x: real, y: real, z: real, s: real)
    ensures ScaledMatrix(w, x, y, z, s).r0.y * ScaledMatrix(w, x, y, z, s).r2.y == (s * (x * y - z * w)) * (s * (y * z + x * w))
  {
  }

  lemma EntryProduct02Z(w: real, x: real, y: real, z: real, s: real)
    ensures ScaledMatrix(w, x, y, z, s).r0.z * ScaledMatrix(w, x, y, z, s).r2.z == (s * (x * z + y * w)) * (1.0 - s * (x * x + y * y))
  {
  }

  lemma {:induction false} RowDot02Expanded(w: real, x: real, y: real, z: real, s: real)
    ensures Dot(ScaledMatrix(w, x, y, z, s).r0, ScaledMatrix(w, x, y, z, s).r2)
         == (1.0 - s * (y * y + z * z)) * (s * (x * z - y * w)) + (s * (x * y - z * w)) * (s * (y * z + x * w)) + (s * (x * z + y * w)) * (1.0 - s * (x * x + y * y))
  {
    EntryProduct02X(w, x, y, z, s);
    EntryProduct02Y(w, x, y, z, s);
    EntryProduct02Z(w, x, y, z, s);
    DotOfProducts(ScaledMatrix(w, x, y, z, s).r0, ScaledMatrix(w, x, y, z, s).r2, (1.0 - s * (y * y + z * z)) * (s * (x * z - y * w)), (s * (x * y - z * w)) * (s * (y * z + x * w)), (s * (x * z + y * w)) * (1.0 - s * (x * x + y * y)));
  }

  lemma RowDot02Factored(w: real, x: real, y: real, z: real, s: real)
    ensures (1.0 - s * (y * y + z * z)) * (s * (x * z - y * w)) + (s * (x * y - z * w)) * (s * (y * z + x * w)) + (s * (x * z + y * w)) * (1.0 - s * (x * x + y * y))
         == s * (x * z) * (2.0 - s * (w * w + x * x + y * y + z * z))
  {
  }

  lemma {:induction false} RowDot02Identity(w: real, x: real, y: real, z: real, s: real)
    requires s * (w * w + x * x + y * y + z * z) == 2.0
    ensures (1.0 - s * (y * y + z * z)) * (s * (x * z - y * w)) + (s * (x * y - z * w)) * (s * (y * z + x * w)) + (s * (x * z + y * w)) * (1.0 - s * (x * x + y * y)) == 0.0
  {
    RowDot02Factored(w, x, y, z, s);
    MulZero(s * (x * z), 2.0 - s * (w * w + x * x + y * y + z * z));
  }

  lemma {:induction false} RowDot02(w: real, x: real, y: real, z: real, s: real)
    requires s * (w * w + x * x + y * y + z * z) == 2.0
    ensures Dot(ScaledMatrix(w, x, y, z, s).r0, ScaledMatrix(w, x, y, z, s).r2) == 0.0
  {
    RowDot02Expanded(w, x, y, z, s);
    RowDot02Identity(w, x, y, z, s);
  }

  lemma EntryProduct11X(w: real, x: real, y: real, z: real, s: real)
    ensures ScaledMatrix(w, x, y, z, s).r1.x * ScaledMatrix(w, x, y, z, s).r1.x == (s * (x * y + z * w)) * (s * (x * y + z * w))
  {
  }

  lemma EntryProduct11Y(w: real, x: real, y: real, z: real, s: real)
    ensures ScaledMatrix(w, x, y, z, s).r1.y * ScaledMatrix(w, x, y, z, s).r1.y == (1.0 - s * (x * x + z * z)) * (1.0 - s * (x * x + z * z))
  {
  }

  lemma EntryProduct11Z(w: real, x: real, y: real, z: real, s: real)
    ensures ScaledMatrix(w, x, y, z, s).r1.z * ScaledMatrix(w, x, y, z, s).r1.z == (s * (y * z - x * w)) * (s * (y * z - x * w))
  {
  }

  lemma {:induction false} RowDot11Expanded(w: real, x: real, y: real, z: real, s: real)
    ensures Dot(ScaledMatrix(w, x, y, z, s).r1, ScaledMatrix(w, x, y, z, s).r1)
         == (s * (x * y + z * w)) * (s * (x * y + z * w)) + (1.0 - s * (x * x + z * z)) * (1.0 - s * (x * x + z * z)) + (s * (y * z - x * w)) * (s * (y * z - x * w))
  {
    EntryProduct11X(w, x, y, z, s);
    EntryProduct11Y(w, x, y, z, s);
    EntryProduct11Z(w, x, y, z, s);
    DotOfProducts(ScaledMatrix(w, x, y, z, s).r1, ScaledMatrix(w, x, y, z, s).r1, (s * (x * y + z * w)) * (s * (x * y + z * w)), (1.0 - s * (x * x + z * z)) * (1.0 - s * (x * x + z * z)), (s * (y * z - x * w)) * (s * (y * z - x * w)));
  }

  lemma RowDot11Factored(w: real, x: real, y: real, z: real, s: real)
    ensures (s * (x * y + z * w)) * (s * (x * y + z * w)) + (1.0 - s * (x * x + z * z)) * (1.0 - s * (x * x + z * z)) + (s * (y * z - x * w)) * (s * (y * z - x * w))
         == 1.0 + s * (x * x + z * z) * (s * (w * w + x * x + y * y + z * z) - 2.0)
  {
  }

  lemma {:induction false} RowDot11Identity(w: real, x: real, y: real, z: real, s: real)
    requires s * (w * w + x * x + y * y + z * z) == 2.0
    ensures (s * (x * y + z * w)) * (s * (x * y + z * w)) + (1.0 - s * (x * x + z * z)) * (1.0 - s * (x * x + z * z)) + (s * (y * z - x * w)) * (s * (y * z - x * w)) == 1.0
  {
    RowDot11Factored(w, x, y, z, s);
    MulZero(s * (x * x + z * z), s * (w * w + x * x + y * y + z * z) - 2.0);
  }

  lemma {:induction false} RowDot11(w: real, x: real, y: real, z: real, s: real)
    requires s * (w * w + x * x + y * y + z * z) == 2.0
    ensures Dot(ScaledMatrix(w, x, y, z, s).r1, ScaledMatrix(w, x, y, z, s).r1) == 1.0
  {
    RowDot11Expanded(w, x, y, z, s);
    RowDot11Identity(w, x, y, z, s);
  }

  lemma EntryProduct12X(w: real, x: real, y: real, z: real, s: real)
    ensures ScaledMatrix(w, x, y, z, s).r1.x * ScaledMatrix(w, x, y, z, s).r2.x == (s * (x * y + z * w)) * (s * (x * z - y * w))
  {
  }

  lemma EntryProduct12Y(w: real, x: real, y: real, z: real, s: real)
    ensures ScaledMatrix(w, x, y, z, s).r1.y * ScaledMatrix(w, x, y, z, s).r2.y == (1.0 - s * (x * x + z * z)) * (s * (y * z + x * w))
  {
  }

  lemma EntryProduct12Z(w: real, x: real, y: real, z: real, s: real)
    ensures ScaledMatrix(w, x, y, z, s).r1.z * ScaledMatrix(w, x, y, z, s).r2.z == (s * (y * z - x * w)) * (1.0 - s * (x * x + y * y))
  {
  }

  lemma {:induction false} RowDot12Expanded(w: real, x: real, y: real, z: real, s: real)
    ensures Dot(ScaledMatrix(w, x, y, z, s).r1, ScaledMatrix(w, x, y, z, s).r2)
         == (s * (x * y + z * w)) * (s * (x * z - y * w)) + (1.0 - s * (x * x + z * z)) * (s * (y * z + x * w)) + (s * (y * z - x * w)) * (1.0 - s * (x * x + y * y))
  {
    EntryProduct12X(w, x, y, z, s);
    EntryProduct12Y(w, x, y, z, s);
    EntryProduct12Z(w, x, y, z, s);
    DotOfProducts(ScaledMatrix(w, x, y, z, s).r1, ScaledMatrix(w, x, y, z, s).r2, (s * (x * y + z * w)) * (s * (x * z - y * w)), (1.0 - s * (x * x + z * z)) * (s * (y * z + x * w)), (s * (y * z - x * w)) * (1.0 - s * (x * x + y * y)));
  }

  lemma RowDot12Factored(w: real, x: real, y: real, z: real, s: real)
    ensures (s * (x * y + z * w)) * (s * (x * z - y * w)) + (1.0 - s * (x * x + z * z)) * (s * (y * z + x * w)) + (s * (y * z - x * w)) * (1.0 - s * (x * x + y * y))
         == s * (y * z) * (2.0 - s * (w * w + x * x + y * y + z * z))
  {
  }

  lemma {:induction false} RowDot12Identity(w: real, x: real, y: real, z: real, s: real)
    requires s * (w * w + x * x + y * y + z * z) == 2.0
    ensures (s * (x * y + z * w)) * (s * (x * z - y * w)) + (1.0 - s * (x * x + z * z)) * (s * (y * z + x * w)) + (s * (y * z - x * w)) * (1.0 - s * (x * x + y * y)) == 0.0
  {
    RowDot12Factored(w, x, y, z, s);
    MulZero(s * (y * z), 2.0 - s * (w * w + x * x + y * y + z * z));
  }

  lemma {:induction false} RowDot12(w: real, x: real, y: real, z: real, s: real)
    requires s * (w * w + x * x + y * y + z * z) == 2.0
    ensures Dot(ScaledMatrix(w, x, y, z, s).r1, ScaledMatrix(w, x, y, z, s).r2) == 0.0
  {
    RowDot12Expanded(w, x, y, z, s);
    RowDot12Identity(w, x, y, z, s);
  }

  lemma EntryProduct22X(w: real, x: real, y: real, z: real, s: real)
    ensures ScaledMatrix(w, x, y, z, s).r2.x * ScaledMatrix(w, x, y, z, s).r2.x == (s * (x * z - y * w)) * (s * (x * z - y * w))
  {
  }

  lemma EntryProduct22Y(w: real, x: real, y: real, z: real, s: real)
    ensures ScaledMatrix(w, x, y, z, s).r2.y * ScaledMatrix(w, x, y, z, s).r2.y == (s * (y * z + x * w)) * (s * (y * z + x * w))
  {
  }

  lemma EntryProduct22Z(w: real, x: real, y: real, z: real, s: real)
    ensures ScaledMatrix(w, x, y, z, s).r2.z * ScaledMatrix(w, x, y, z, s).r2.z == (1.0 - s * (x * x + y * y)) * (1.0 - s * (x * x + y * y))
  {
  }

  lemma {:induction false} RowDot22Expanded(w: real, x: real, y: real, z: real, s: real)
    ensures Dot(ScaledMatrix(w, x, y, z, s).r2, ScaledMatrix(w, x, y, z, s).r2)
         == (s * (x * z - y * w)) * (s * (x * z - y * w)) + (s * (y * z + x * w)) * (s * (y * z + x * w)) + (1.0 - s * (x * x + y * y)) * (1.0 - s * (x * x + y * y))
  {
    EntryProduct22X(w, x, y, z, s);
    EntryProduct22Y(w, x, y, z, s);
    EntryProduct22Z(w, x, y, z, s);
    DotOfProducts(ScaledMatrix(w, x, y, z, s).r2, ScaledMatrix(w, x, y, z, s).r2, (s * (x * z - y * w)) * (s * (x * z - y * w)), (s * (y * z + x * w)) * (s * (y * z + x * w)), (1.0 - s * (x * x + y * y)) * (1.0 - s * (x * x + y * y)));
  }

  lemma RowDot22Factored(w: real, x: real, y: real, z: real, s: real)
    ensures (s * (x * z - y * w)) * (s * (x * z - y * w)) + (s * (y * z + x * w)) * (s * (y * z + x * w)) + (1.0 - s * (x * x + y * y)) * (1.0 - s * (x * x + y * y))
         == 1.0 + s * (x * x + y * y) * (s * (w * w + x * x + y * y + z * z) - 2.0)
  {
  }

  lemma {:induction false} RowDot22Identity(w: real, x: real, y: real, z: real, s: real)
    requires s * (w * w + x * x + y * y + z * z) == 2.0
    ensures (s * (x * z - y * w)) * (s * (x * z - y * w)) + (s * (y * z + x * w)) * (s * (y * z + x * w)) + (1.0 - s * (x * x + y * y)) * (1.0 - s * (x * x + y * y)) == 1.0
  {
    RowDot22Factored(w, x, y, z, s);
    MulZero(s * (x * x + y * y), s * (w * w + x * x + y * y + z * z) - 2.0);
  }

  lemma {:induction false} RowDot22(w: real, x: real, y: real, z: real, s: real)
    requires s * (w * w + x * x + y * y + z * z) == 2.0
    ensures Dot(ScaledMatrix(w, x, y, z, s).r2, ScaledMatrix(w, x, y, z, s).r2) == 1.0
  {
    RowDot22Expanded(w, x, y, z, s);
    RowDot22Identity(w, x, y, z, s);
  }

  lemma DotOfProducts(u: Vec3, v: Vec3, px: real, py: real, pz: real)
    requires u.x * v.x == px && u.y * v.y == py && u.z * v.z == pz
    ensures Dot(u, v) == px + py + pz
  {
  }

  lemma DotCommutes(u: Vec3, v: Vec3)
    ensures Dot(u, v) == Dot(v, u)
  {
  }

  /** With `s |q|² = 2` the rows are orthonormal: `m mᵀ = I`. */
  lemma {:induction false} ScaledRowsOrthonormal(w: real, x: real, y: real, z: real, s: real)
    requires s * (w * w + x * x + y * y + z * z) == 2.0
    ensures MatMul(ScaledMatrix(w, x, y, z, s), Transpose(ScaledMatrix(w, x, y, z, s))) == Identity
  {
    var m := ScaledMatrix(w, x, y, z, s);
    RowTimesTranspose(m.r0, m);
    RowTimesTranspose(m.r1, m);
    RowTimesTranspose(m.r2, m);
    DotCommutes(m.r0, m.r1);
    DotCommutes(m.r0, m.r2);
    DotCommutes(m.r1, m.r2);
    RowDot00(w, x, y, z, s);
    RowDot01(w, x, y, z, s);
    RowDot02(w, x, y, z, s);
    RowDot11(w, x, y, z, s);
    RowDot12(w, x, y, z, s);
    RowDot22(w, x, y, z, s);
  }

  lemma {:induction false} RowsOrthonormal(q: Quat)
    requires NormSq(q) != 0.0
    ensures MatMul(QuaternionToMatrix(q), Transpose(QuaternionToMatrix(q))) == Identity
  {
    TwoSTimesNormSq(q);
    ScaledRowsOrthonormal(q.w, q.x, q.y, q.z, TwoS(q));
  }

  /** The transpose is the matrix of the inverse quaternion. */
  lemma {:induction false} TransposeIsInverse(q: Quat)
    requires NormSq(q) != 0.0
    ensures NormSq(Invert(q)) == NormSq(q)
    ensures Transpose(QuaternionToMatrix(q)) == QuaternionToMatrix(Invert(q))
  {
    var p := Invert(q);
    assert NormSq(p) == NormSq(q);
    var s := TwoS(q);
    assert TwoS(p) == s;
    ScaledTranspose(q.w, q.x, q.y, q.z, s);
  }

  /** Negating the vector part transposes the stacked matrix. */
  lemma ScaledTranspose(r: real, i: real, j: real, k: real, s: real)
    ensures Transpose(ScaledMatrix(r, i, j, k, s)) == ScaledMatrix(r, -i, -j, -k, s)
  {
  }

  lemma TransposeTwice(m: Mat3)
    ensures Transpose(Transpose(m)) == m
  {
  }

  /** For every nonzero `q` the result is orthogonal. */
  lemma {:induction false} QuaternionToMatrixOrthogonal(q: Quat)
    requires NormSq(q) != 0.0
    ensures IsOrthogonal(QuaternionToMatrix(q))
  {
    var m := QuaternionToMatrix(q);
    RowsOrthonormal(q);
    TransposeIsInverse(q);
    RowsOrthonormal(Invert(q));
    TransposeTwice(m);
  }

  // The determinant: the cross product of the last two rows is the first
  // row plus a multiple of `s |q|² - 2`, so it is the first row itself.

  lemma CrossFactoredX(w: real, x: real, y: real, z: real, s: real, a: real, b: real, c: real, d: real)
    requires a == 1.0 - s * (x * x + z * z) && b == 1.0 - s * (x * x + y * y)
    requires c == s * (y * z - x * w) && d == s * (y * z + x * w)
    ensures a * b - c * d == (1.0 - s * (y * y + z * z)) + s * (x * x) * (s * (w * w + x * x + y * y + z * z) - 2.0)
  {
  }

  lemma CrossFactoredY(w: real, x: real, y: real, z: real, s: real, a: real, b: real, c: real, d: real)
    requires a == s * (y * z - x * w) && b == s * (x * z - y * w)
    requires c == s * (x * y + z * w) && d == 1.0 - s * (x * x + y * y)
    ensures a * b - c * d == s * (x * y - z * w) + s * (x * y) * (s * (w * w + x * x + y * y + z * z) - 2.0)
  {
  }

  lemma CrossFactoredZ(w: real, x: real, y: real, z: real, s: real, a: real, b: real, c: real, d: real)
    requires a == s * (x * y + z * w) && b == s * (y * z + x * w)
    requires c == 1.0 - s * (x * x + z * z) && d == s * (x * z - y * w)
    ensures a * b - c * d == s * (x * z + y * w) + s * (x * z) * (s * (w * w + x * x + y * y + z * z) - 2.0)
  {
  }

  lemma {:induction false} CrossEntryX(w: real, x: real, y: real, z: real, s: real, a: real, b: real, c: real, d: real, e: real)
    requires a == 1.0 - s * (x * x + z * z) && b == 1.0 - s * (x * x + y * y)
    requires c == s * (y * z - x * w) && d == s * (y * z + x * w)
    requires e == 1.0 - s * (y * y + z * z)
    requires s * (w * w + x * x + y * y + z * z) == 2.0
    ensures a * b - c * d == e
  {
    CrossFactoredX(w, x, y, z, s, a, b, c, d);
    MulZero(s * (x * x), s * (w * w + x * x + y * y + z * z) - 2.0);
  }

  lemma {:induction false} CrossEntryY(w: real, x: real, y: real, z: real, s: real, a: real, b: real, c: real, d: real, e: real)
    requires a == s * (y * z - x * w) && b == s * (x * z - y * w)
    requires c == s * (x * y + z * w) && d == 1.0 - s * (x * x + y * y)
    requires e == s * (x * y - z * w)
    requires s * (w * w + x * x + y * y + z * z) == 2.0
    ensures a * b - c * d == e
  {
    CrossFactoredY(w, x, y, z, s, a, b, c, d);
    MulZero(s * (x * y), s * (w * w + x * x + y * y + z * z) - 2.0);
  }

  lemma {:induction false} CrossEntryZ(w: real, x: real, y: real, z: real, s: real, a: real, b: real, c: real, d: real, e: real)
    requires a == s * (x * y + z * w) && b == s * (y * z + x * w)
    requires c == 1.0 - s * (x * x + z * z) && d == s * (x * z - y * w)
    requires e == s * (x * z + y * w)
    requires s * (w * w + x * x + y * y + z * z) == 2.0
    ensures a * b - c * d == e
  {
    CrossFactoredZ(w, x, y, z, s, a, b, c, d);
    MulZero(s * (x * z), s * (w * w + x * x + y * y + z * z) - 2.0);
  }

  lemma CrossOfEntries(u: Vec3, v: Vec3, r: Vec3)
    requires u.y * v.z - u.z * v.y == r.x
    requires u.z * v.x - u.x * v.z == r.y
    requires u.x * v.y - u.y * v.x == r.z
    ensures Cross(u, v) == r
  {}
  lemma {:induction false} CrossOfRowsIsFirstRow(w: real, x: real, y: real, z: real, s: real)
    requires s * (w * w + x * x + y * y + z * z) == 2.0
    ensures Cross(ScaledMatrix(w, x, y, z, s).r1, ScaledMatrix(w, x, y, z, s).r2) == ScaledMatrix(w, x, y, z, s).r0
  {
    var m := ScaledMatrix(w, x, y, z, s);
     CrossEntryX(w, x, y, z, s, m.r1.y, m.r2.z, m.r1.z, m.r2.y, m.r0.x);
    CrossEntryY(w, x, y, z, s, m.r1.z, m.r2.x, m.r1.x, m.r2.z, m.r0.y);
    CrossEntryZ(w, x, y, z, s, m.r1.x, m.r2.y, m.r1.y, m.r2.x, m.r0.z);
    CrossOfEntries(m.r1, m.r2, m.r0);
  }

  lemma {:induction false} ScaledMatrixDet(w: real, x: real, y: real, z: real, s: real)
    requires s * (w * w + x * x + y * y + z * z) == 2.0
    ensures Det(ScaledMatrix(w, x, y, z, s)) == 1.0
  {
    CrossOfRowsIsFirstRow(w, x, y, z, s);
    RowDot00(w, x, y, z, s);
  }

  /** For every nonzero `q` the result is a rotation: orthogonal with
      determinant 1, never a reflection. */
  lemma {:induction false} QuaternionToMatrixIsRotation(q: Quat)
    requires NormSq(q) != 0.0
    ensures IsRotation(QuaternionToMatrix(q))
  {
    var s := TwoS(q);
    TwoSTimesNormSq(q);
    ScaledMatrixDet(q.w, q.x, q.y, q.z, s);
    QuaternionToMatrixOrthogonal(q);
  }

  // Scale invariance: two_s = 2 / |q|² cancels the factor c² that scaling
  // q by c puts into every entry.

  lemma ScaledJjKk(r: real, i: real, j: real, k: real, c: real, t: real, s: real)
    ensures t * ((c * j) * (c * j) + (c * k) * (c * k)) - s * (j * j + k * k) == (t * (c * c) - s) * (j * j + k * k)
  {
  }

  lemma ScaledIjMinusKr(r: real, i: real, j: real, k: real, c: real, t: real, s: real)
    ensures t * ((c * i) * (c * j) - (c * k) * (c * r)) - s * (i * j - k * r) == (t * (c * c) - s) * (i * j - k * r)
  {
  }

  lemma ScaledIkPlusJr(r: real, i: real, j: real, k: real, c: real, t: real, s: real)
    ensures t * ((c * i) * (c * k) + (c * j) * (c * r)) - s * (i * k + j * r) == (t * (c * c) - s) * (i * k + j * r)
  {
  }

  lemma ScaledIjPlusKr(r: real, i: real, j: real, k: real, c: real, t: real, s: real)
    ensures t * ((c * i) * (c * j) + (c * k) * (c * r)) - s * (i * j + k * r) == (t * (c * c) - s) * (i * j + k * r)
  {
  }

  lemma ScaledIiKk(r: real, i: real, j: real, k: real, c: real, t: real, s: real)
    ensures t * ((c * i) * (c * i) + (c * k) * (c * k)) - s * (i * i + k * k) == (t * (c * c) - s) * (i * i + k * k)
  {
  }

  lemma ScaledJkMinusIr(r: real, i: real, j: real, k: real, c: real, t: real, s: real)
    ensures t * ((c * j) * (c * k) - (c * i) * (c * r)) - s * (j * k - i * r) == (t * (c * c) - s) * (j * k - i * r)
  {
  }

  lemma ScaledIkMinusJr(r: real, i: real, j: real, k: real, c: real, t: real, s: real)
    ensures t * ((c * i) * (c * k) - (c * j) * (c * r)) - s * (i * k - j * r) == (t * (c * c) - s) * (i * k - j * r)
  {
  }

  lemma ScaledJkPlusIr(r: real, i: real, j: real, k: real, c: real, t: real, s: real)
    ensures t * ((c * j) * (c * k) + (c * i) * (c * r)) - s * (j * k + i * r) == (t * (c * c) - s) * (j * k + i * r)
  {
  }

  lemma ScaledIiJj(r: real, i: real, j: real, k: real, c: real, t: real, s: real)
    ensures t * ((c * i) * (c * i) + (c * j) * (c * j)) - s * (i * i + j * j) == (t * (c * c) - s) * (i * i + j * j)
  {
  }

  /** Each quadratic form of the entries, taken at `c q` and scaled by `t`,
      equals the same form at `q` scaled by `s` when `t c² = s`. */
  lemma {:induction false} ScaledFormsAgree(r: real, i: real, j: real, k: real, c: real, t: real, s: real)
    requires t * (c * c) == s
    ensures t * ((c * j) * (c * j) + (c * k) * (c * k)) == s * (j * j + k * k)
    ensures t * ((c * i) * (c * j) - (c * k) * (c * r)) == s * (i * j - k * r)
    ensures t * ((c * i) * (c * k) + (c * j) * (c * r)) == s * (i * k + j * r)
    ensures t * ((c * i) * (c * j) + (c * k) * (c * r)) == s * (i * j + k * r)
    ensures t * ((c * i) * (c * i) + (c * k) * (c * k)) == s * (i * i + k * k)
    ensures t * ((c * j) * (c * k) - (c * i) * (c * r)) == s * (j * k - i * r)
    ensures t * ((c * i) * (c * k) - (c * j) * (c * r)) == s * (i * k - j * r)
    ensures t * ((c * j) * (c * k) + (c * i) * (c * r)) == s * (j * k + i * r)
    ensures t * ((c * i) * (c * i) + (c * j) * (c * j)) == s * (i * i + j * j)
  {
    ScaledJjKk(r, i, j, k, c, t, s);
    MulZero(j * j + k * k, t * (c * c) - s);
    ScaledIjMinusKr(r, i, j, k, c, t, s);
    MulZero(i * j - k * r, t * (c * c) - s);
    ScaledIkPlusJr(r, i, j, k, c, t, s);
    MulZero(i * k + j * r, t * (c * c) - s);
    ScaledIjPlusKr(r, i, j, k, c, t, s);
    MulZero(i * j + k * r, t * (c * c) - s);
    ScaledIiKk(r, i, j, k, c, t, s);
    MulZero(i * i + k * k, t * (c * c) - s);
    ScaledJkMinusIr(r, i, j, k, c, t, s);
    MulZero(j * k - i * r, t * (c * c) - s);
    ScaledIkMinusJr(r, i, j, k, c, t, s);
    MulZero(i * k - j * r, t * (c * c) - s);
    ScaledJkPlusIr(r, i, j, k, c, t, s);
    MulZero(j * k + i * r, t * (c * c) - s);
    ScaledIiJj(r, i, j, k, c, t, s);
    MulZero(i * i + j * j, t * (c * c) - s);
  }

  /** `ScaledMatrix(c q, t) = ScaledMatrix(q, s)` when `t c² = s`. */
  lemma {:induction false} ScaledMatrixHomogeneous(q: Quat, c: real, t: real, s: real)
    requires t * (c * c) == s
    ensures ScaledMatrix(Scale(c, q).w, Scale(c, q).x, Scale(c, q).y, Scale(c, q).z, t)
         == ScaledMatrix(q.w, q.x, q.y, q.z, s)
  {
    var r, i, j, k := q.w, q.x, q.y, q.z;
    ScaledFormsAgree(r, i, j, k, c, t, s);
    assert ScaledMatrix(c * r, c * i, c * j, c * k, t) == ScaledMatrix(r, i, j, k, s);
    assert Scale(c, q) == Quat(c * r, c * i, c * j, c * k);
  }

  lemma NormSqOfScale(c: real, q: Quat)
    ensures NormSq(Scale(c, q)) == (c * c) * NormSq(q)
  {
  }

  lemma {:induction false} TwoSOfScale(c: real, q: Quat, t: real, s: real)
    requires c != 0.0 && NormSq(q) != 0.0
    requires NormSq(Scale(c, q)) != 0.0 && t == TwoS(Scale(c, q)) && s == TwoS(q)
    ensures t * (c * c) == s
  {
    NormSqOfScale(c, q);
    var n := NormSq(q);
    var k := c * c;
    assert NormSq(Scale(c, q)) == k * n;
    assert (2.0 / (k * n)) * k == 2.0 / n;
  }

  lemma {:induction false} ScaleKeepsNonzero(c: real, q: Quat)
    requires c != 0.0 && NormSq(q) != 0.0
    ensures NormSq(Scale(c, q)) != 0.0
  {
    NormSqOfScale(c, q);
    if c * c == 0.0 {
      ZeroProduct(c, c);
    }
    if (c * c) * NormSq(q) == 0.0 {
      ZeroProduct(c * c, NormSq(q));
    }
  }

  /** `q` and `c q` give the same matrix for every nonzero `c`, `-q`
      included. */
  lemma {:induction false} QuaternionToMatrixScaleInvariant(c: real, q: Quat)
    requires c != 0.0 && NormSq(q) != 0.0
    ensures NormSq(Scale(c, q)) != 0.0
    ensures QuaternionToMatrix(Scale(c, q)) == QuaternionToMatrix(q)
  {
    ScaleKeepsNonzero(c, q);
    var t := TwoS(Scale(c, q));
    var s := TwoS(q);
    TwoSOfScale(c, q, t, s);
    ScaledMatrixHomogeneous(q, c, t, s);
  }

  /** `(1, 0, 0, 0)` maps to the identity. */
  lemma QuaternionToMatrixOfOne()
    ensures NormSq(One) == 1.0 && QuaternionToMatrix(One) == Identity
  {
  }
}
