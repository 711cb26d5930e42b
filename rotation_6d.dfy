/** `matrix_to_rotation_6d` (base.py): the 6D representation keeps the
    first two rows of the matrix, row-major. */
module Rotation6d {
  import opened LinearAlgebra

  /** `matrix[..., :2, :]` reshaped to six numbers. Entry `k` is the matrix
      entry at row `k / 3`, column `k % 3`. */
  function MatrixToRotation6d(m: Mat3): (r: seq<real>)
    ensures |r| == 6
    ensures forall k :: 0 <= k < 6 ==> r[k] == m.At(k / 3, k % 3)
  {
    [m.r0.x, m.r0.y, m.r0.z, m.r1.x, m.r1.y, m.r1.z]
  }

  /** The two rows kept, read back out of the six numbers. */
  lemma {:induction false} Rotation6dRows(m: Mat3)
    ensures var r := MatrixToRotation6d(m);
      Vec3(r[0], r[1], r[2]) == m.r0 && Vec3(r[3], r[4], r[5]) == m.r1
  {
    var r := MatrixToRotation6d(m);
    assert r[0] == m.At(0, 0) && r[1] == m.At(0, 1) && r[2] == m.At(0, 2);
    assert r[3] == m.At(1, 0) && r[4] == m.At(1, 1) && r[5] == m.At(1, 2);
  }

  /** Dropping the last row loses nothing for a rotation: two rotations
      with the same 6D representation are equal, because the third row is
      the cross product of the first two. */
  lemma {:induction false} Rotation6dDeterminesRotation(m: Mat3, n: Mat3)
    requires IsRotation(m) && IsRotation(n)
    requires MatrixToRotation6d(m) == MatrixToRotation6d(n)
    ensures m == n
  {
    Rotation6dRows(m);
    Rotation6dRows(n);
    ThirdRowIsCross(m);
    ThirdRowIsCross(n);
  }
}
