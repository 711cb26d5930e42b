/** 3-vectors and 3x3 matrices over the reals: the part of the compute
    backend's linear algebra (stack, matmul, transpose, cross product) that
    the rotation conversions use, with the facts about rotation matrices the
    conversions are proved against. */
module LinearAlgebra {

  datatype Vec3 = Vec3(x: real, y: real, z: real) {
    /** Component `i`, as `v[..., i]` reads it. */
    function At(i: nat): real
      requires i < 3
    {
      if i == 0 then x else if i == 1 then y else z
    }
  }

  /** A 3x3 matrix stored by rows: `m[..., i, :]` is `Row(i)`. */
  datatype Mat3 = Mat3(r0: Vec3, r1: Vec3, r2: Vec3) {
    function Row(i: nat): Vec3
      requires i < 3
    {
      if i == 0 then r0 else if i == 1 then r1 else r2
    }

    /** `m[..., j]`: the j-th column. */
    function Col(j: nat): Vec3
      requires j < 3
    {
      Vec3(r0.At(j), r1.At(j), r2.At(j))
    }

    function At(i: nat, j: nat): real
      requires i < 3 && j < 3
    {
      Row(i).At(j)
    }
  }

  const Identity: Mat3 := Mat3(Vec3(1.0, 0.0, 0.0), Vec3(0.0, 1.0, 0.0), Vec3(0.0, 0.0, 1.0))

  /** The unit vector along axis `i`. */
  function Basis(i: nat): Vec3
    requires i < 3
  {
    Identity.Row(i)
  }

  function Dot(u: Vec3, v: Vec3): real
  {
    u.x * v.x + u.y * v.y + u.z * v.z
  }

  function Cross(u: Vec3, v: Vec3): Vec3
  {
    Vec3(u.y * v.z - u.z * v.y, u.z * v.x - u.x * v.z, u.x * v.y - u.y * v.x)
  }

  /** The linear combination `u.x p + u.y q + u.z r`. */
  function Combine(u: Vec3, p: Vec3, q: Vec3, r: Vec3): Vec3
  {
    Vec3(u.x * p.x + u.y * q.x + u.z * r.x,
         u.x * p.y + u.y * q.y + u.z * r.y,
         u.x * p.z + u.y * q.z + u.z * r.z)
  }

  /** The row vector `u` times `m`. */
  function RowTimes(u: Vec3, m: Mat3): Vec3
  {
    Combine(u, m.r0, m.r1, m.r2)
  }

  function Transpose(m: Mat3): Mat3
  {
    Mat3(m.Col(0), m.Col(1), m.Col(2))
  }

  /** `a @ b`: row i of the product is row i of `a` times `b`. */
  function MatMul(a: Mat3, b: Mat3): Mat3
  {
    Mat3(RowTimes(a.r0, b), RowTimes(a.r1, b), RowTimes(a.r2, b))
  }

  /** `m @ v` for a column vector `v`. */
  function Apply(m: Mat3, v: Vec3): Vec3
  {
    Vec3(Dot(m.r0, v), Dot(m.r1, v), Dot(m.r2, v))
  }

  /** The determinant of the matrix with rows `a`, `b`, `c`. */
  function Det3(a: Vec3, b: Vec3, c: Vec3): real
  {
    Dot(a, Cross(b, c))
  }

  function Det(m: Mat3): real
  {
    Det3(m.r0, m.r1, m.r2)
  }

  /** Orthogonal on both sides: `m mᵀ = mᵀ m = I`. */
  ghost predicate IsOrthogonal(m: Mat3)
  {
    MatMul(m, Transpose(m)) == Identity && MatMul(Transpose(m), m) == Identity
  }

  /** A member of SO(3). */
  ghost predicate IsRotation(m: Mat3)
  {
    IsOrthogonal(m) && Det(m) == 1.0
  }

  lemma DotRowTimes(u: Vec3, b: Mat3, k: Vec3)
    ensures Dot(RowTimes(u, b), k) == Dot(u, Apply(b, k))
  {
  }

  lemma RowTimesByColumns(u: Vec3, c: Mat3)
    ensures RowTimes(u, c) == Vec3(Dot(u, c.Col(0)), Dot(u, c.Col(1)), Dot(u, c.Col(2)))
  {
  }

  lemma {:induction false} RowTimesAssociative(u: Vec3, b: Mat3, c: Mat3)
    ensures RowTimes(RowTimes(u, b), c) == RowTimes(u, MatMul(b, c))
  {
    var bc := MatMul(b, c);
    RowTimesByColumns(RowTimes(u, b), c);
    RowTimesByColumns(b.r0, c);
    RowTimesByColumns(b.r1, c);
    RowTimesByColumns(b.r2, c);
    assert bc.Col(0) == Apply(b, c.Col(0)) && bc.Col(1) == Apply(b, c.Col(1)) && bc.Col(2) == Apply(b, c.Col(2));
    RowTimesByColumns(u, bc);
    DotRowTimes(u, b, c.Col(0));
    DotRowTimes(u, b, c.Col(1));
    DotRowTimes(u, b, c.Col(2));
  }

  lemma {:induction false} MatMulAssociative(a: Mat3, b: Mat3, c: Mat3)
    ensures MatMul(MatMul(a, b), c) == MatMul(a, MatMul(b, c))
  {
    RowTimesAssociative(a.r0, b, c);
    RowTimesAssociative(a.r1, b, c);
    RowTimesAssociative(a.r2, b, c);
  }

  lemma TransposeOfProduct(a: Mat3, b: Mat3)
    ensures Transpose(MatMul(a, b)) == MatMul(Transpose(b), Transpose(a))
  {
  }

  lemma MatMulIdentity(a: Mat3)
    ensures MatMul(a, Identity) == a && MatMul(Identity, a) == a
  {
  }

  // The determinant is linear in each row and alternating; these give
  // det(a b) = det(a) det(b) one expansion at a time. Each arithmetic step is
  // its own lemma over plain reals, so the solver never has to substitute
  // inside a product in a large context.

  /** `a.x u + a.y v + a.z w` */
  function Lin(a: Vec3, u: real, v: real, w: real): real
  {
    a.x * u + a.y * v + a.z * w
  }

  lemma DetLinearFirst(u: Vec3, b0: Vec3, b1: Vec3, b2: Vec3, p: Vec3, q: Vec3)
    ensures Det3(Combine(u, b0, b1, b2), p, q) == Lin(u, Det3(b0, p, q), Det3(b1, p, q), Det3(b2, p, q))
  {
  }

  /** The six-term expansion of the determinant. */
  lemma DetExpanded(a: Vec3, b: Vec3, c: Vec3)
    ensures Det3(a, b, c) == a.x * b.y * c.z - a.x * b.z * c.y + a.y * b.z * c.x
      - a.y * b.x * c.z + a.z * b.x * c.y - a.z * b.y * c.x
  {
  }

  lemma {:induction false} DetCyclic(a: Vec3, b: Vec3, c: Vec3)
    ensures Det3(b, c, a) == Det3(a, b, c) && Det3(c, a, b) == Det3(a, b, c)
    ensures Det3(a, c, b) == -Det3(a, b, c) && Det3(b, a, c) == -Det3(a, b, c) && Det3(c, b, a) == -Det3(a, b, c)
  {
    DetExpanded(a, b, c);
    DetExpanded(b, c, a);
    DetExpanded(c, a, b);
    DetExpanded(a, c, b);
    DetExpanded(b, a, c);
    DetExpanded(c, b, a);
  }

  lemma DetRepeated(p: Vec3, q: Vec3)
    ensures Det3(p, p, q) == 0.0 && Det3(p, q, p) == 0.0 && Det3(q, p, p) == 0.0
  {
  }

  lemma {:induction false} DetLinearSecond(u: Vec3, b0: Vec3, b1: Vec3, b2: Vec3, p: Vec3, q: Vec3)
    ensures Det3(p, Combine(u, b0, b1, b2), q) == Lin(u, Det3(p, b0, q), Det3(p, b1, q), Det3(p, b2, q))
  {
    DetCyclic(p, Combine(u, b0, b1, b2), q);
    DetLinearFirst(u, b0, b1, b2, q, p);
    DetCyclic(p, b0, q);
    DetCyclic(p, b1, q);
    DetCyclic(p, b2, q);
  }

  lemma {:induction false} DetLinearThird(u: Vec3, b0: Vec3, b1: Vec3, b2: Vec3, p: Vec3, q: Vec3)
    ensures Det3(p, q, Combine(u, b0, b1, b2)) == Lin(u, Det3(p, q, b0), Det3(p, q, b1), Det3(p, q, b2))
  {
    DetCyclic(p, q, Combine(u, b0, b1, b2));
    DetLinearFirst(u, b0, b1, b2, p, q);
    DetCyclic(p, q, b0);
    DetCyclic(p, q, b1);
    DetCyclic(p, q, b2);
  }

  /** Factors `d` out of a combination of multiples of `d`. */
  lemma ScaleLin(e: real, a: Vec3, p: real, q: real, r: real, d: real, u: real, v: real, w: real)
    requires e == Lin(a, p, q, r)
    requires p == u * d && q == v * d && r == w * d
    ensures e == Lin(a, u, v, w) * d
  {
  }

  /** `det(p, q, w B)` from the values of `det(p, q, bk)`. */
  lemma {:induction false} DetThirdOne(w: Vec3, b0: Vec3, b1: Vec3, b2: Vec3, p: Vec3, q: Vec3, u: real, v: real, x: real)
    requires Det3(p, q, b0) == u * Det3(b0, b1, b2)
    requires Det3(p, q, b1) == v * Det3(b0, b1, b2)
    requires Det3(p, q, b2) == x * Det3(b0, b1, b2)
    ensures Det3(p, q, Combine(w, b0, b1, b2)) == Lin(w, u, v, x) * Det3(b0, b1, b2)
  {
    DetLinearThird(w, b0, b1, b2, p, q);
    ScaleLin(Det3(p, q, Combine(w, b0, b1, b2)), w, Det3(p, q, b0), Det3(p, q, b1), Det3(p, q, b2), Det3(b0, b1, b2), u, v, x);
  }

  /** `det(r, v B, c)` from the values of `det(r, bk, c)`. */
  lemma {:induction false} DetSecondOne(v: Vec3, b0: Vec3, b1: Vec3, b2: Vec3, r: Vec3, c: Vec3, d: real, p: real, q: real, s: real)
    requires Det3(r, b0, c) == p * d && Det3(r, b1, c) == q * d && Det3(r, b2, c) == s * d
    ensures Det3(r, Combine(v, b0, b1, b2), c) == Lin(v, p, q, s) * d
  {
    DetLinearSecond(v, b0, b1, b2, r, c);
    ScaleLin(Det3(r, Combine(v, b0, b1, b2), c), v, Det3(r, b0, c), Det3(r, b1, c), Det3(r, b2, c), d, p, q, s);
  }

  /** `det(bk, v B, w B)` for each row `bk` of B, via `det(bk, bl, w B)`. */
  lemma {:induction false} DetRowExpanded(v: Vec3, w: Vec3, b0: Vec3, b1: Vec3, b2: Vec3)
    ensures var c1, c2, d := Combine(v, b0, b1, b2), Combine(w, b0, b1, b2), Det3(b0, b1, b2);
      && Det3(b0, c1, c2) == Lin(v, Lin(w, 0.0, 0.0, 0.0), Lin(w, 0.0, 0.0, 1.0), Lin(w, 0.0, -1.0, 0.0)) * d
      && Det3(b1, c1, c2) == Lin(v, Lin(w, 0.0, 0.0, -1.0), Lin(w, 0.0, 0.0, 0.0), Lin(w, 1.0, 0.0, 0.0)) * d
      && Det3(b2, c1, c2) == Lin(v, Lin(w, 0.0, 1.0, 0.0), Lin(w, -1.0, 0.0, 0.0), Lin(w, 0.0, 0.0, 0.0)) * d
  {
    var c2, d := Combine(w, b0, b1, b2), Det3(b0, b1, b2);
    DetRepeated(b0, b1); DetRepeated(b0, b2); DetRepeated(b1, b2);
    DetRepeated(b1, b0); DetRepeated(b2, b0); DetRepeated(b2, b1);
    DetCyclic(b0, b1, b2);
    DetThirdOne(w, b0, b1, b2, b0, b0, 0.0, 0.0, 0.0);
    DetThirdOne(w, b0, b1, b2, b0, b1, 0.0, 0.0, 1.0);
    DetThirdOne(w, b0, b1, b2, b0, b2, 0.0, -1.0, 0.0);
    DetThirdOne(w, b0, b1, b2, b1, b0, 0.0, 0.0, -1.0);
    DetThirdOne(w, b0, b1, b2, b1, b1, 0.0, 0.0, 0.0);
    DetThirdOne(w, b0, b1, b2, b1, b2, 1.0, 0.0, 0.0);
    DetThirdOne(w, b0, b1, b2, b2, b0, 0.0, 1.0, 0.0);
    DetThirdOne(w, b0, b1, b2, b2, b1, -1.0, 0.0, 0.0);
    DetThirdOne(w, b0, b1, b2, b2, b2, 0.0, 0.0, 0.0);
    DetSecondOne(v, b0, b1, b2, b0, c2, d, Lin(w, 0.0, 0.0, 0.0), Lin(w, 0.0, 0.0, 1.0), Lin(w, 0.0, -1.0, 0.0));
    DetSecondOne(v, b0, b1, b2, b1, c2, d, Lin(w, 0.0, 0.0, -1.0), Lin(w, 0.0, 0.0, 0.0), Lin(w, 1.0, 0.0, 0.0));
    DetSecondOne(v, b0, b1, b2, b2, c2, d, Lin(w, 0.0, 1.0, 0.0), Lin(w, -1.0, 0.0, 0.0), Lin(w, 0.0, 0.0, 0.0));
  }

  /** The cofactor expansion of det(a) along its first row. */
  lemma DetExpansion(a0: Vec3, a1: Vec3, a2: Vec3)
    ensures Lin(a0, Lin(a1, Lin(a2, 0.0, 0.0, 0.0), Lin(a2, 0.0, 0.0, 1.0), Lin(a2, 0.0, -1.0, 0.0)),
                    Lin(a1, Lin(a2, 0.0, 0.0, -1.0), Lin(a2, 0.0, 0.0, 0.0), Lin(a2, 1.0, 0.0, 0.0)),
                    Lin(a1, Lin(a2, 0.0, 1.0, 0.0), Lin(a2, -1.0, 0.0, 0.0), Lin(a2, 0.0, 0.0, 0.0)))
            == Det3(a0, a1, a2)
  {
  }

  lemma ReplaceFactor(e: real, x: real, y: real, d: real)
    requires e == x * d && x == y
    ensures e == y * d
  {
  }

  lemma {:induction false} DetOfProduct(a: Mat3, b: Mat3)
    ensures Det(MatMul(a, b)) == Det(a) * Det(b)
  {
    var v, w := a.r1, a.r2;
    var c1, c2, d := RowTimes(v, b), RowTimes(w, b), Det(b);
    var k0 := Lin(v, Lin(w, 0.0, 0.0, 0.0), Lin(w, 0.0, 0.0, 1.0), Lin(w, 0.0, -1.0, 0.0));
    var k1 := Lin(v, Lin(w, 0.0, 0.0, -1.0), Lin(w, 0.0, 0.0, 0.0), Lin(w, 1.0, 0.0, 0.0));
    var k2 := Lin(v, Lin(w, 0.0, 1.0, 0.0), Lin(w, -1.0, 0.0, 0.0), Lin(w, 0.0, 0.0, 0.0));
    DetRowExpanded(v, w, b.r0, b.r1, b.r2);
    DetLinearFirst(a.r0, b.r0, b.r1, b.r2, c1, c2);
    ScaleLin(Det3(RowTimes(a.r0, b), c1, c2), a.r0, Det3(b.r0, c1, c2), Det3(b.r1, c1, c2), Det3(b.r2, c1, c2), d, k0, k1, k2);
    DetExpansion(a.r0, v, w);
    ReplaceFactor(Det3(RowTimes(a.r0, b), c1, c2), Lin(a.r0, k0, k1, k2), Det(a), d);
  }

  /** SO(3) is closed under the matrix product. */
  lemma {:induction false} RotationProduct(a: Mat3, b: Mat3)
    requires IsRotation(a) && IsRotation(b)
    ensures IsRotation(MatMul(a, b))
  {
    var ab := MatMul(a, b);
    calc {
      MatMul(ab, Transpose(ab));
    == { TransposeOfProduct(a, b); }
      MatMul(ab, MatMul(Transpose(b), Transpose(a)));
    == { MatMulAssociative(a, b, MatMul(Transpose(b), Transpose(a)));
         MatMulAssociative(b, Transpose(b), Transpose(a)); }
      MatMul(a, MatMul(MatMul(b, Transpose(b)), Transpose(a)));
    == { MatMulIdentity(Transpose(a)); }
      MatMul(a, Transpose(a));
    }
    calc {
      MatMul(Transpose(ab), ab);
    == { TransposeOfProduct(a, b); }
      MatMul(MatMul(Transpose(b), Transpose(a)), ab);
    == { MatMulAssociative(Transpose(b), Transpose(a), ab);
         MatMulAssociative(Transpose(a), a, b); }
      MatMul(Transpose(b), MatMul(MatMul(Transpose(a), a), b));
    == { MatMulIdentity(b); }
      MatMul(Transpose(b), b);
    }
    DetOfProduct(a, b);
  }

  /** The cofactor matrix of `m`, whose rows are cross products of rows of `m`. */
  function Cofactor(m: Mat3): Mat3
  {
    Mat3(Cross(m.r1, m.r2), Cross(m.r2, m.r0), Cross(m.r0, m.r1))
  }

  function Scaled(d: real): Mat3
  {
    Mat3(Vec3(d, 0.0, 0.0), Vec3(0.0, d, 0.0), Vec3(0.0, 0.0, d))
  }

  lemma RowTimesTranspose(u: Vec3, m: Mat3)
    ensures RowTimes(u, Transpose(m)) == Vec3(Dot(u, m.r0), Dot(u, m.r1), Dot(u, m.r2))
  {
  }

  lemma DotCross(u: Vec3, v: Vec3, w: Vec3)
    ensures Dot(Cross(v, w), u) == Det3(u, v, w)
  {
  }

  lemma {:induction false} CofactorTimesTranspose(m: Mat3)
    ensures MatMul(Cofactor(m), Transpose(m)) == Scaled(Det(m))
  {
    RowTimesTranspose(Cross(m.r1, m.r2), m);
    RowTimesTranspose(Cross(m.r2, m.r0), m);
    RowTimesTranspose(Cross(m.r0, m.r1), m);
    DotCross(m.r0, m.r1, m.r2); DotCross(m.r1, m.r1, m.r2); DotCross(m.r2, m.r1, m.r2);
    DotCross(m.r0, m.r2, m.r0); DotCross(m.r1, m.r2, m.r0); DotCross(m.r2, m.r2, m.r0);
    DotCross(m.r0, m.r0, m.r1); DotCross(m.r1, m.r0, m.r1); DotCross(m.r2, m.r0, m.r1);
    DetCyclic(m.r0, m.r1, m.r2);
    DetRepeated(m.r0, m.r1);
    DetRepeated(m.r1, m.r2);
    DetRepeated(m.r2, m.r0);
    DetRepeated(m.r1, m.r0);
    DetRepeated(m.r2, m.r1);
    DetRepeated(m.r0, m.r2);
  }

  /** For a rotation matrix, the third row is the cross product of the first
      two, so the first two rows determine the matrix. */
  lemma {:induction false} ThirdRowIsCross(m: Mat3)
    requires IsRotation(m)
    ensures m.r2 == Cross(m.r0, m.r1)
  {
    // C mᵀ = det(m) I and mᵀ m = I give C = det(m) m = m; the third row of C
    // is r0 × r1.
    var c := Cofactor(m);
    calc {
      c;
    == { MatMulIdentity(c); }
      MatMul(c, MatMul(Transpose(m), m));
    == { MatMulAssociative(c, Transpose(m), m); }
      MatMul(MatMul(c, Transpose(m)), m);
    == { CofactorTimesTranspose(m); }
      MatMul(Scaled(1.0), m);
    == { MatMulIdentity(m); }
      m;
    }
  }
}
