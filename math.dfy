/** The `Matrix4` and `Quaternion` classes of math.js, and `isPowerOfTwo`.
    A Matrix4 holds 16 numbers in column-major order: the entry in row r and
    column c (both counted from 0) sits at index c*4 + r. Entries are reals,
    so rounding is not modelled. */
module Math {

  /** The 16 entries of a 4×4 matrix, column-major. */
  type Mat4 = m: seq<real> | |m| == 16
    witness [1.0, 0.0, 0.0, 0.0, 0.0, 1.0, 0.0, 0.0, 0.0, 0.0, 1.0, 0.0, 0.0, 0.0, 0.0, 1.0]

  /** The entry in row `r` and column `c`. */
  function Entry(m: Mat4, r: nat, c: nat): real
    requires r < 4 && c < 4
  {
    m[c * 4 + r]
  }

  const IdentityMatrix: Mat4 := [1.0, 0.0, 0.0, 0.0, 0.0, 1.0, 0.0, 0.0, 0.0, 0.0, 1.0, 0.0, 0.0, 0.0, 0.0, 1.0]

  const Zero: Mat4 := [0.0, 0.0, 0.0, 0.0, 0.0, 0.0, 0.0, 0.0, 0.0, 0.0, 0.0, 0.0, 0.0, 0.0, 0.0, 0.0]

  /** The identity has ones on the diagonal (indices 0, 5, 10, 15) and zeros elsewhere. */
  lemma IdentityEntries()
    ensures forall r: nat, c: nat :: r < 4 && c < 4 ==> Entry(IdentityMatrix, r, c) == if r == c then 1.0 else 0.0
  {
  }

  /** The transposed matrix: rows become columns. */
  function Transposed(m: Mat4): (t: Mat4)
  {
    [m[0], m[4], m[8], m[12],
     m[1], m[5], m[9], m[13],
     m[2], m[6], m[10], m[14],
     m[3], m[7], m[11], m[15]]
  }

  /** Transposition swaps row and column of every entry. */
  lemma TransposeEntries(m: Mat4)
    ensures forall r: nat, c: nat :: r < 4 && c < 4 ==> Entry(Transposed(m), r, c) == Entry(m, c, r)
  {
    forall r: nat, c: nat | r < 4 && c < 4
      ensures Entry(Transposed(m), r, c) == Entry(m, c, r)
    {
      assert r == 0 || r == 1 || r == 2 || r == 3;
      assert c == 0 || c == 1 || c == 2 || c == 3;
    }
  }

  /** Transposing twice gives the matrix back. */
  lemma TransposeInvolution(m: Mat4)
    ensures Transposed(Transposed(m)) == m
  {
  }

  /** Transposition never moves the diagonal entries 0, 5, 10, 15, and
      swaps every other entry with its mirror. */
  lemma TransposeFixesDiagonal(m: Mat4)
    ensures var t := Transposed(m); t[0] == m[0] && t[5] == m[5] && t[10] == m[10] && t[15] == m[15]
  {
  }

  /** Row `r` of `a` times column `c` of `b`: the sum over k of a's entry
      (r, k) times b's entry (k, c). */
  function Dot(a: Mat4, b: Mat4, r: nat, c: nat): real
    requires r < 4 && c < 4
  {
    Entry(a, r, 0) * Entry(b, 0, c) + Entry(a, r, 1) * Entry(b, 1, c) +
    Entry(a, r, 2) * Entry(b, 2, c) + Entry(a, r, 3) * Entry(b, 3, c)
  }

  /** The matrix product `a × b`. */
  function Mul(a: Mat4, b: Mat4): (p: Mat4)
  {
    [Dot(a, b, 0, 0), Dot(a, b, 1, 0), Dot(a, b, 2, 0), Dot(a, b, 3, 0),
     Dot(a, b, 0, 1), Dot(a, b, 1, 1), Dot(a, b, 2, 1), Dot(a, b, 3, 1),
     Dot(a, b, 0, 2), Dot(a, b, 1, 2), Dot(a, b, 2, 2), Dot(a, b, 3, 2),
     Dot(a, b, 0, 3), Dot(a, b, 1, 3), Dot(a, b, 2, 3), Dot(a, b, 3, 3)]
  }

  /** Entry (r, c) of the product is row r of `a` times column c of `b`. */
  lemma MulEntry(a: Mat4, b: Mat4, r: nat, c: nat)
    requires r < 4 && c < 4
    ensures Entry(Mul(a, b), r, c) == Dot(a, b, r, c)
  {
    if c == 0 {
      assert r == 0 || r == 1 || r == 2 || r == 3;
    } else if c == 1 {
      assert r == 0 || r == 1 || r == 2 || r == 3;
    } else if c == 2 {
      assert r == 0 || r == 1 || r == 2 || r == 3;
    } else {
      assert r == 0 || r == 1 || r == 2 || r == 3;
    }
  }

  /** The identity is neutral on the left. */
  lemma MulIdentityLeft(m: Mat4)
    ensures Mul(IdentityMatrix, m) == m
  {
  }

  /** The identity is neutral on the right. */
  lemma MulIdentityRight(m: Mat4)
    ensures Mul(m, IdentityMatrix) == m
  {
  }

  /** `compose(position, quaternion, scale)`: the affine transform that scales,
      then rotates by the quaternion (x, y, z, w), then translates. */
  function Composed(position: seq<real>, quaternion: seq<real>, scale: seq<real>): (m: Mat4)
    requires |position| >= 3 && |quaternion| >= 4 && |scale| >= 3
    ensures m[3] == 0.0 && m[7] == 0.0 && m[11] == 0.0 && m[15] == 1.0
    ensures m[12] == position[0] && m[13] == position[1] && m[14] == position[2]
  {
    var x, y, z, w := quaternion[0], quaternion[1], quaternion[2], quaternion[3];
    var x2, y2, z2 := x + x, y + y, z + z;
    var xx, xy, xz := x * x2, x * y2, x * z2;
    var yy, yz, zz := y * y2, y * z2, z * z2;
    var wx, wy, wz := w * x2, w * y2, w * z2;
    var sx, sy, sz := scale[0], scale[1], scale[2];
    [(1.0 - (yy + zz)) * sx, (xy + wz) * sx, (xz - wy) * sx, 0.0,
     (xy - wz) * sy, (1.0 - (xx + zz)) * sy, (yz + wx) * sy, 0.0,
     (xz + wy) * sz, (yz - wx) * sz, (1.0 - (xx + yy)) * sz, 0.0,
     position[0], position[1], position[2], 1.0]
  }

  /** The translation by (x, y, z). */
  function Translation(x: real, y: real, z: real): (m: Mat4)
    ensures m == IdentityMatrix[12 := x][13 := y][14 := z]
  {
    [1.0, 0.0, 0.0, 0.0, 0.0, 1.0, 0.0, 0.0, 0.0, 0.0, 1.0, 0.0, x, y, z, 1.0]
  }

  /** With the identity quaternion (0, 0, 0, 1) the upper 3×3 block is the
      scale on the diagonal. */
  lemma ComposeWithoutRotation(position: seq<real>, scale: seq<real>)
    requires |position| >= 3 && |scale| >= 3
    ensures Composed(position, [0.0, 0.0, 0.0, 1.0], scale) ==
      [scale[0], 0.0, 0.0, 0.0, 0.0, scale[1], 0.0, 0.0, 0.0, 0.0, scale[2], 0.0,
       position[0], position[1], position[2], 1.0]
  {
  }

  /** With the identity quaternion and unit scale, compose is the translation
      by the position; with the default position too, it is the identity. */
  lemma ComposeDefaults(position: seq<real>)
    requires |position| >= 3
    ensures Composed(position, [0.0, 0.0, 0.0, 1.0], [1.0, 1.0, 1.0]) == Translation(position[0], position[1], position[2])
    ensures Composed([0.0, 0.0, 0.0], [0.0, 0.0, 0.0, 1.0], [1.0, 1.0, 1.0]) == IdentityMatrix
  {
    ComposeWithoutRotation(position, [1.0, 1.0, 1.0]);
    ComposeWithoutRotation([0.0, 0.0, 0.0], [1.0, 1.0, 1.0]);
  }

  /** The cofactor matrix (transposed) that `invert` computes before scaling
      by the reciprocal of the determinant. */
  function Adjugate(m: Mat4): Mat4
  {
    var n11, n21, n31, n41 := m[0], m[1], m[2], m[3];
    var n12, n22, n32, n42 := m[4], m[5], m[6], m[7];
    var n13, n23, n33, n43 := m[8], m[9], m[10], m[11];
    var n14, n24, n34, n44 := m[12], m[13], m[14], m[15];
    [ n23 * n34 * n42 - n24 * n33 * n42 + n24 * n32 * n43 - n22 * n34 * n43 - n23 * n32 * n44 + n22 * n33 * n44,
      n24 * n33 * n41 - n23 * n34 * n41 - n24 * n31 * n43 + n21 * n34 * n43 + n23 * n31 * n44 - n21 * n33 * n44,
      n22 * n34 * n41 - n24 * n32 * n41 + n24 * n31 * n42 - n21 * n34 * n42 - n22 * n31 * n44 + n21 * n32 * n44,
      n23 * n32 * n41 - n22 * n33 * n41 - n23 * n31 * n42 + n21 * n33 * n42 + n22 * n31 * n43 - n21 * n32 * n43,

      n14 * n33 * n42 - n13 * n34 * n42 - n14 * n32 * n43 + n12 * n34 * n43 + n13 * n32 * n44 - n12 * n33 * n44,
      n13 * n34 * n41 - n14 * n33 * n41 + n14 * n31 * n43 - n11 * n34 * n43 - n13 * n31 * n44 + n11 * n33 * n44,
      n14 * n32 * n41 - n12 * n34 * n41 - n14 * n31 * n42 + n11 * n34 * n42 + n12 * n31 * n44 - n11 * n32 * n44,
      n12 * n33 * n41 - n13 * n32 * n41 + n13 * n31 * n42 - n11 * n33 * n42 - n12 * n31 * n43 + n11 * n32 * n43,

      n13 * n24 * n42 - n14 * n23 * n42 + n14 * n22 * n43 - n12 * n24 * n43 - n13 * n22 * n44 + n12 * n23 * n44,
      n14 * n23 * n41 - n13 * n24 * n41 - n14 * n21 * n43 + n11 * n24 * n43 + n13 * n21 * n44 - n11 * n23 * n44,
      n12 * n24 * n41 - n14 * n22 * n41 + n14 * n21 * n42 - n11 * n24 * n42 - n12 * n21 * n44 + n11 * n22 * n44,
      n13 * n22 * n41 - n12 * n23 * n41 - n13 * n21 * n42 + n11 * n23 * n42 + n12 * n21 * n43 - n11 * n22 * n43,

      n14 * n23 * n32 - n13 * n24 * n32 - n14 * n22 * n33 + n12 * n24 * n33 + n13 * n22 * n34 - n12 * n23 * n34,
      n13 * n24 * n31 - n14 * n23 * n31 + n14 * n21 * n33 - n11 * n24 * n33 - n13 * n21 * n34 + n11 * n23 * n34,
      n14 * n22 * n31 - n12 * n24 * n31 - n14 * n21 * n32 + n11 * n24 * n32 + n12 * n21 * n34 - n11 * n22 * n34,
      n12 * n23 * n31 - n13 * n22 * n31 + n13 * n21 * n32 - n11 * n23 * n32 - n12 * n21 * n33 + n11 * n22 * n33 ]
  }

  /** The determinant, expanded along the first column. */
  function Determinant(m: Mat4): real
  {
    var adj := Adjugate(m);
    m[0] * adj[0] + m[1] * adj[4] + m[2] * adj[8] + m[3] * adj[12]
  }

  /** What `invert` leaves in the matrix: the inverse, or all zeros when the
      determinant is exactly 0. */
  function Inverse(m: Mat4): (r: Mat4)
    ensures Determinant(m) == 0.0 ==> r == Zero
  {
    var det := Determinant(m);
    if det == 0.0 then Zero
    else
      var adj, detInv := Adjugate(m), 1.0 / det;
      [adj[0] * detInv, adj[1] * detInv, adj[2] * detInv, adj[3] * detInv,
       adj[4] * detInv, adj[5] * detInv, adj[6] * detInv, adj[7] * detInv,
       adj[8] * detInv, adj[9] * detInv, adj[10] * detInv, adj[11] * detInv,
       adj[12] * detInv, adj[13] * detInv, adj[14] * detInv, adj[15] * detInv]
  }

  /** Inverting the identity gives the identity. */
  lemma InvertIdentity()
    ensures Determinant(IdentityMatrix) == 1.0 && Inverse(IdentityMatrix) == IdentityMatrix
  {
  }

  /** The inverse of a translation translates back. */
  lemma InvertTranslation(x: real, y: real, z: real)
    ensures Inverse(Translation(x, y, z)) == Translation(-x, -y, -z)
  {
    var t := Translation(x, y, z);
    assert Adjugate(t) == Translation(-x, -y, -z);
    assert Determinant(t) == 1.0;
  }

  // The lemmas below prove adj(m) × m == m × adj(m) == det(m) × I, entry by entry.
  // Each Cofactor lemma works on the sixteen entries as plain reals: it returns a
  // row (Left) or column (Right) of the adjugate's cofactors, names them, and
  // states their dot product with one column (row) of m.  Naming the cofactors as
  // out-parameters lets a caller connect them with Adjugate(m)'s entries without
  // the solver multiplying out whole sequences.

  /** Row 1 of the adjugate times column 1 of m, in the order Determinant sums it. */
  lemma CofactorLeft11(
      n11: real, n21: real, n31: real, n41: real,
      n12: real, n22: real, n32: real, n42: real,
      n13: real, n23: real, n33: real, n43: real,
      n14: real, n24: real, n34: real, n44: real)
    returns (t11: real, t12: real, t13: real, t14: real)
    ensures t11 == n23 * n34 * n42 - n24 * n33 * n42 + n24 * n32 * n43 - n22 * n34 * n43 - n23 * n32 * n44 + n22 * n33 * n44
    ensures t12 == n14 * n33 * n42 - n13 * n34 * n42 - n14 * n32 * n43 + n12 * n34 * n43 + n13 * n32 * n44 - n12 * n33 * n44
    ensures t13 == n13 * n24 * n42 - n14 * n23 * n42 + n14 * n22 * n43 - n12 * n24 * n43 - n13 * n22 * n44 + n12 * n23 * n44
    ensures t14 == n14 * n23 * n32 - n13 * n24 * n32 - n14 * n22 * n33 + n12 * n24 * n33 + n13 * n22 * n34 - n12 * n23 * n34
    ensures t11 * n11 + t12 * n21 + t13 * n31 + t14 * n41 == n11 * t11 + n21 * t12 + n31 * t13 + n41 * t14
  {
    t11, t12, t13, t14 :=
      n23 * n34 * n42 - n24 * n33 * n42 + n24 * n32 * n43 - n22 * n34 * n43 - n23 * n32 * n44 + n22 * n33 * n44,
      n14 * n33 * n42 - n13 * n34 * n42 - n14 * n32 * n43 + n12 * n34 * n43 + n13 * n32 * n44 - n12 * n33 * n44,
      n13 * n24 * n42 - n14 * n23 * n42 + n14 * n22 * n43 - n12 * n24 * n43 - n13 * n22 * n44 + n12 * n23 * n44,
      n14 * n23 * n32 - n13 * n24 * n32 - n14 * n22 * n33 + n12 * n24 * n33 + n13 * n22 * n34 - n12 * n23 * n34;
  }

  /** Row 1 of the adjugate times column 2 of m. */
  lemma CofactorLeft12(
      n11: real, n21: real, n31: real, n41: real,
      n12: real, n22: real, n32: real, n42: real,
      n13: real, n23: real, n33: real, n43: real,
      n14: real, n24: real, n34: real, n44: real)
    returns (t11: real, t12: real, t13: real, t14: real)
    ensures t11 == n23 * n34 * n42 - n24 * n33 * n42 + n24 * n32 * n43 - n22 * n34 * n43 - n23 * n32 * n44 + n22 * n33 * n44
    ensures t12 == n14 * n33 * n42 - n13 * n34 * n42 - n14 * n32 * n43 + n12 * n34 * n43 + n13 * n32 * n44 - n12 * n33 * n44
    ensures t13 == n13 * n24 * n42 - n14 * n23 * n42 + n14 * n22 * n43 - n12 * n24 * n43 - n13 * n22 * n44 + n12 * n23 * n44
    ensures t14 == n14 * n23 * n32 - n13 * n24 * n32 - n14 * n22 * n33 + n12 * n24 * n33 + n13 * n22 * n34 - n12 * n23 * n34
    ensures t11 * n12 + t12 * n22 + t13 * n32 + t14 * n42 == 0.0
  {
    t11, t12, t13, t14 :=
      n23 * n34 * n42 - n24 * n33 * n42 + n24 * n32 * n43 - n22 * n34 * n43 - n23 * n32 * n44 + n22 * n33 * n44,
      n14 * n33 * n42 - n13 * n34 * n42 - n14 * n32 * n43 + n12 * n34 * n43 + n13 * n32 * n44 - n12 * n33 * n44,
      n13 * n24 * n42 - n14 * n23 * n42 + n14 * n22 * n43 - n12 * n24 * n43 - n13 * n22 * n44 + n12 * n23 * n44,
      n14 * n23 * n32 - n13 * n24 * n32 - n14 * n22 * n33 + n12 * n24 * n33 + n13 * n22 * n34 - n12 * n23 * n34;
  }

  /** Row 1 of the adjugate times column 3 of m. */
  lemma CofactorLeft13(
      n11: real, n21: real, n31: real, n41: real,
      n12: real, n22: real, n32: real, n42: real,
      n13: real, n23: real, n33: real, n43: real,
      n14: real, n24: real, n34: real, n44: real)
    returns (t11: real, t12: real, t13: real, t14: real)
    ensures t11 == n23 * n34 * n42 - n24 * n33 * n42 + n24 * n32 * n43 - n22 * n34 * n43 - n23 * n32 * n44 + n22 * n33 * n44
    ensures t12 == n14 * n33 * n42 - n13 * n34 * n42 - n14 * n32 * n43 + n12 * n34 * n43 + n13 * n32 * n44 - n12 * n33 * n44
    ensures t13 == n13 * n24 * n42 - n14 * n23 * n42 + n14 * n22 * n43 - n12 * n24 * n43 - n13 * n22 * n44 + n12 * n23 * n44
    ensures t14 == n14 * n23 * n32 - n13 * n24 * n32 - n14 * n22 * n33 + n12 * n24 * n33 + n13 * n22 * n34 - n12 * n23 * n34
    ensures t11 * n13 + t12 * n23 + t13 * n33 + t14 * n43 == 0.0
  {
    t11, t12, t13, t14 :=
      n23 * n34 * n42 - n24 * n33 * n42 + n24 * n32 * n43 - n22 * n34 * n43 - n23 * n32 * n44 + n22 * n33 * n44,
      n14 * n33 * n42 - n13 * n34 * n42 - n14 * n32 * n43 + n12 * n34 * n43 + n13 * n32 * n44 - n12 * n33 * n44,
      n13 * n24 * n42 - n14 * n23 * n42 + n14 * n22 * n43 - n12 * n24 * n43 - n13 * n22 * n44 + n12 * n23 * n44,
      n14 * n23 * n32 - n13 * n24 * n32 - n14 * n22 * n33 + n12 * n24 * n33 + n13 * n22 * n34 - n12 * n23 * n34;
  }

  /** Row 1 of the adjugate times column 4 of m. */
  lemma CofactorLeft14(
      n11: real, n21: real, n31: real, n41: real,
      n12: real, n22: real, n32: real, n42: real,
      n13: real, n23: real, n33: real, n43: real,
      n14: real, n24: real, n34: real, n44: real)
    returns (t11: real, t12: real, t13: real, t14: real)
    ensures t11 == n23 * n34 * n42 - n24 * n33 * n42 + n24 * n32 * n43 - n22 * n34 * n43 - n23 * n32 * n44 + n22 * n33 * n44
    ensures t12 == n14 * n33 * n42 - n13 * n34 * n42 - n14 * n32 * n43 + n12 * n34 * n43 + n13 * n32 * n44 - n12 * n33 * n44
    ensures t13 == n13 * n24 * n42 - n14 * n23 * n42 + n14 * n22 * n43 - n12 * n24 * n43 - n13 * n22 * n44 + n12 * n23 * n44
    ensures t14 == n14 * n23 * n32 - n13 * n24 * n32 - n14 * n22 * n33 + n12 * n24 * n33 + n13 * n22 * n34 - n12 * n23 * n34
    ensures t11 * n14 + t12 * n24 + t13 * n34 + t14 * n44 == 0.0
  {
    t11, t12, t13, t14 :=
      n23 * n34 * n42 - n24 * n33 * n42 + n24 * n32 * n43 - n22 * n34 * n43 - n23 * n32 * n44 + n22 * n33 * n44,
      n14 * n33 * n42 - n13 * n34 * n42 - n14 * n32 * n43 + n12 * n34 * n43 + n13 * n32 * n44 - n12 * n33 * n44,
      n13 * n24 * n42 - n14 * n23 * n42 + n14 * n22 * n43 - n12 * n24 * n43 - n13 * n22 * n44 + n12 * n23 * n44,
      n14 * n23 * n32 - n13 * n24 * n32 - n14 * n22 * n33 + n12 * n24 * n33 + n13 * n22 * n34 - n12 * n23 * n34;
  }

  /** Row 2 of the adjugate times column 1 of m. */
  lemma CofactorLeft21(
      n11: real, n21: real, n31: real, n41: real,
      n12: real, n22: real, n32: real, n42: real,
      n13: real, n23: real, n33: real, n43: real,
      n14: real, n24: real, n34: real, n44: real)
    returns (t21: real, t22: real, t23: real, t24: real)
    ensures t21 == n24 * n33 * n41 - n23 * n34 * n41 - n24 * n31 * n43 + n21 * n34 * n43 + n23 * n31 * n44 - n21 * n33 * n44
    ensures t22 == n13 * n34 * n41 - n14 * n33 * n41 + n14 * n31 * n43 - n11 * n34 * n43 - n13 * n31 * n44 + n11 * n33 * n44
    ensures t23 == n14 * n23 * n41 - n13 * n24 * n41 - n14 * n21 * n43 + n11 * n24 * n43 + n13 * n21 * n44 - n11 * n23 * n44
    ensures t24 == n13 * n24 * n31 - n14 * n23 * n31 + n14 * n21 * n33 - n11 * n24 * n33 - n13 * n21 * n34 + n11 * n23 * n34
    ensures t21 * n11 + t22 * n21 + t23 * n31 + t24 * n41 == 0.0
  {
    t21, t22, t23, t24 :=
      n24 * n33 * n41 - n23 * n34 * n41 - n24 * n31 * n43 + n21 * n34 * n43 + n23 * n31 * n44 - n21 * n33 * n44,
      n13 * n34 * n41 - n14 * n33 * n41 + n14 * n31 * n43 - n11 * n34 * n43 - n13 * n31 * n44 + n11 * n33 * n44,
      n14 * n23 * n41 - n13 * n24 * n41 - n14 * n21 * n43 + n11 * n24 * n43 + n13 * n21 * n44 - n11 * n23 * n44,
      n13 * n24 * n31 - n14 * n23 * n31 + n14 * n21 * n33 - n11 * n24 * n33 - n13 * n21 * n34 + n11 * n23 * n34;
  }

  /** Row 2 of the adjugate times column 2 of m. */
  lemma CofactorLeft22(
      n11: real, n21: real, n31: real, n41: real,
      n12: real, n22: real, n32: real, n42: real,
      n13: real, n23: real, n33: real, n43: real,
      n14: real, n24: real, n34: real, n44: real)
    returns (t21: real, t22: real, t23: real, t24: real, u11: real, u12: real, u13: real, u14: real)
    ensures t21 == n24 * n33 * n41 - n23 * n34 * n41 - n24 * n31 * n43 + n21 * n34 * n43 + n23 * n31 * n44 - n21 * n33 * n44
    ensures t22 == n13 * n34 * n41 - n14 * n33 * n41 + n14 * n31 * n43 - n11 * n34 * n43 - n13 * n31 * n44 + n11 * n33 * n44
    ensures t23 == n14 * n23 * n41 - n13 * n24 * n41 - n14 * n21 * n43 + n11 * n24 * n43 + n13 * n21 * n44 - n11 * n23 * n44
    ensures t24 == n13 * n24 * n31 - n14 * n23 * n31 + n14 * n21 * n33 - n11 * n24 * n33 - n13 * n21 * n34 + n11 * n23 * n34
    ensures u11 == n23 * n34 * n42 - n24 * n33 * n42 + n24 * n32 * n43 - n22 * n34 * n43 - n23 * n32 * n44 + n22 * n33 * n44
    ensures u12 == n14 * n33 * n42 - n13 * n34 * n42 - n14 * n32 * n43 + n12 * n34 * n43 + n13 * n32 * n44 - n12 * n33 * n44
    ensures u13 == n13 * n24 * n42 - n14 * n23 * n42 + n14 * n22 * n43 - n12 * n24 * n43 - n13 * n22 * n44 + n12 * n23 * n44
    ensures u14 == n14 * n23 * n32 - n13 * n24 * n32 - n14 * n22 * n33 + n12 * n24 * n33 + n13 * n22 * n34 - n12 * n23 * n34
    ensures t21 * n12 + t22 * n22 + t23 * n32 + t24 * n42 == n11 * u11 + n21 * u12 + n31 * u13 + n41 * u14
  {
    t21, t22, t23, t24, u11, u12, u13, u14 :=
      n24 * n33 * n41 - n23 * n34 * n41 - n24 * n31 * n43 + n21 * n34 * n43 + n23 * n31 * n44 - n21 * n33 * n44,
      n13 * n34 * n41 - n14 * n33 * n41 + n14 * n31 * n43 - n11 * n34 * n43 - n13 * n31 * n44 + n11 * n33 * n44,
      n14 * n23 * n41 - n13 * n24 * n41 - n14 * n21 * n43 + n11 * n24 * n43 + n13 * n21 * n44 - n11 * n23 * n44,
      n13 * n24 * n31 - n14 * n23 * n31 + n14 * n21 * n33 - n11 * n24 * n33 - n13 * n21 * n34 + n11 * n23 * n34,
      n23 * n34 * n42 - n24 * n33 * n42 + n24 * n32 * n43 - n22 * n34 * n43 - n23 * n32 * n44 + n22 * n33 * n44,
      n14 * n33 * n42 - n13 * n34 * n42 - n14 * n32 * n43 + n12 * n34 * n43 + n13 * n32 * n44 - n12 * n33 * n44,
      n13 * n24 * n42 - n14 * n23 * n42 + n14 * n22 * n43 - n12 * n24 * n43 - n13 * n22 * n44 + n12 * n23 * n44,
      n14 * n23 * n32 - n13 * n24 * n32 - n14 * n22 * n33 + n12 * n24 * n33 + n13 * n22 * n34 - n12 * n23 * n34;
  }

  /** Row 2 of the adjugate times column 3 of m. */
  lemma CofactorLeft23(
      n11: real, n21: real, n31: real, n41: real,
      n12: real, n22: real, n32: real, n42: real,
      n13: real, n23: real, n33: real, n43: real,
      n14: real, n24: real, n34: real, n44: real)
    returns (t21: real, t22: real, t23: real, t24: real)
    ensures t21 == n24 * n33 * n41 - n23 * n34 * n41 - n24 * n31 * n43 + n21 * n34 * n43 + n23 * n31 * n44 - n21 * n33 * n44
    ensures t22 == n13 * n34 * n41 - n14 * n33 * n41 + n14 * n31 * n43 - n11 * n34 * n43 - n13 * n31 * n44 + n11 * n33 * n44
    ensures t23 == n14 * n23 * n41 - n13 * n24 * n41 - n14 * n21 * n43 + n11 * n24 * n43 + n13 * n21 * n44 - n11 * n23 * n44
    ensures t24 == n13 * n24 * n31 - n14 * n23 * n31 + n14 * n21 * n33 - n11 * n24 * n33 - n13 * n21 * n34 + n11 * n23 * n34
    ensures t21 * n13 + t22 * n23 + t23 * n33 + t24 * n43 == 0.0
  {
    t21, t22, t23, t24 :=
      n24 * n33 * n41 - n23 * n34 * n41 - n24 * n31 * n43 + n21 * n34 * n43 + n23 * n31 * n44 - n21 * n33 * n44,
      n13 * n34 * n41 - n14 * n33 * n41 + n14 * n31 * n43 - n11 * n34 * n43 - n13 * n31 * n44 + n11 * n33 * n44,
      n14 * n23 * n41 - n13 * n24 * n41 - n14 * n21 * n43 + n11 * n24 * n43 + n13 * n21 * n44 - n11 * n23 * n44,
      n13 * n24 * n31 - n14 * n23 * n31 + n14 * n21 * n33 - n11 * n24 * n33 - n13 * n21 * n34 + n11 * n23 * n34;
  }

  /** Row 2 of the adjugate times column 4 of m. */
  lemma CofactorLeft24(
      n11: real, n21: real, n31: real, n41: real,
      n12: real, n22: real, n32: real, n42: real,
      n13: real, n23: real, n33: real, n43: real,
      n14: real, n24: real, n34: real, n44: real)
    returns (t21: real, t22: real, t23: real, t24: real)
    ensures t21 == n24 * n33 * n41 - n23 * n34 * n41 - n24 * n31 * n43 + n21 * n34 * n43 + n23 * n31 * n44 - n21 * n33 * n44
    ensures t22 == n13 * n34 * n41 - n14 * n33 * n41 + n14 * n31 * n43 - n11 * n34 * n43 - n13 * n31 * n44 + n11 * n33 * n44
    ensures t23 == n14 * n23 * n41 - n13 * n24 * n41 - n14 * n21 * n43 + n11 * n24 * n43 + n13 * n21 * n44 - n11 * n23 * n44
    ensures t24 == n13 * n24 * n31 - n14 * n23 * n31 + n14 * n21 * n33 - n11 * n24 * n33 - n13 * n21 * n34 + n11 * n23 * n34
    ensures t21 * n14 + t22 * n24 + t23 * n34 + t24 * n44 == 0.0
  {
    t21, t22, t23, t24 :=
      n24 * n33 * n41 - n23 * n34 * n41 - n24 * n31 * n43 + n21 * n34 * n43 + n23 * n31 * n44 - n21 * n33 * n44,
      n13 * n34 * n41 - n14 * n33 * n41 + n14 * n31 * n43 - n11 * n34 * n43 - n13 * n31 * n44 + n11 * n33 * n44,
      n14 * n23 * n41 - n13 * n24 * n41 - n14 * n21 * n43 + n11 * n24 * n43 + n13 * n21 * n44 - n11 * n23 * n44,
      n13 * n24 * n31 - n14 * n23 * n31 + n14 * n21 * n33 - n11 * n24 * n33 - n13 * n21 * n34 + n11 * n23 * n34;
  }

  /** Row 3 of the adjugate times column 1 of m. */
  lemma CofactorLeft31(
      n11: real, n21: real, n31: real, n41: real,
      n12: real, n22: real, n32: real, n42: real,
      n13: real, n23: real, n33: real, n43: real,
      n14: real, n24: real, n34: real, n44: real)
    returns (t31: real, t32: real, t33: real, t34: real)
    ensures t31 == n22 * n34 * n41 - n24 * n32 * n41 + n24 * n31 * n42 - n21 * n34 * n42 - n22 * n31 * n44 + n21 * n32 * n44
    ensures t32 == n14 * n32 * n41 - n12 * n34 * n41 - n14 * n31 * n42 + n11 * n34 * n42 + n12 * n31 * n44 - n11 * n32 * n44
    ensures t33 == n12 * n24 * n41 - n14 * n22 * n41 + n14 * n21 * n42 - n11 * n24 * n42 - n12 * n21 * n44 + n11 * n22 * n44
    ensures t34 == n14 * n22 * n31 - n12 * n24 * n31 - n14 * n21 * n32 + n11 * n24 * n32 + n12 * n21 * n34 - n11 * n22 * n34
    ensures t31 * n11 + t32 * n21 + t33 * n31 + t34 * n41 == 0.0
  {
    t31, t32, t33, t34 :=
      n22 * n34 * n41 - n24 * n32 * n41 + n24 * n31 * n42 - n21 * n34 * n42 - n22 * n31 * n44 + n21 * n32 * n44,
      n14 * n32 * n41 - n12 * n34 * n41 - n14 * n31 * n42 + n11 * n34 * n42 + n12 * n31 * n44 - n11 * n32 * n44,
      n12 * n24 * n41 - n14 * n22 * n41 + n14 * n21 * n42 - n11 * n24 * n42 - n12 * n21 * n44 + n11 * n22 * n44,
      n14 * n22 * n31 - n12 * n24 * n31 - n14 * n21 * n32 + n11 * n24 * n32 + n12 * n21 * n34 - n11 * n22 * n34;
  }

  /** Row 3 of the adjugate times column 2 of m. */
  lemma CofactorLeft32(
      n11: real, n21: real, n31: real, n41: real,
      n12: real, n22: real, n32: real, n42: real,
      n13: real, n23: real, n33: real, n43: real,
      n14: real, n24: real, n34: real, n44: real)
    returns (t31: real, t32: real, t33: real, t34: real)
    ensures t31 == n22 * n34 * n41 - n24 * n32 * n41 + n24 * n31 * n42 - n21 * n34 * n42 - n22 * n31 * n44 + n21 * n32 * n44
    ensures t32 == n14 * n32 * n41 - n12 * n34 * n41 - n14 * n31 * n42 + n11 * n34 * n42 + n12 * n31 * n44 - n11 * n32 * n44
    ensures t33 == n12 * n24 * n41 - n14 * n22 * n41 + n14 * n21 * n42 - n11 * n24 * n42 - n12 * n21 * n44 + n11 * n22 * n44
    ensures t34 == n14 * n22 * n31 - n12 * n24 * n31 - n14 * n21 * n32 + n11 * n24 * n32 + n12 * n21 * n34 - n11 * n22 * n34
    ensures t31 * n12 + t32 * n22 + t33 * n32 + t34 * n42 == 0.0
  {
    t31, t32, t33, t34 :=
      n22 * n34 * n41 - n24 * n32 * n41 + n24 * n31 * n42 - n21 * n34 * n42 - n22 * n31 * n44 + n21 * n32 * n44,
      n14 * n32 * n41 - n12 * n34 * n41 - n14 * n31 * n42 + n11 * n34 * n42 + n12 * n31 * n44 - n11 * n32 * n44,
      n12 * n24 * n41 - n14 * n22 * n41 + n14 * n21 * n42 - n11 * n24 * n42 - n12 * n21 * n44 + n11 * n22 * n44,
      n14 * n22 * n31 - n12 * n24 * n31 - n14 * n21 * n32 + n11 * n24 * n32 + n12 * n21 * n34 - n11 * n22 * n34;
  }

  /** Row 3 of the adjugate times column 3 of m. */
  lemma CofactorLeft33(
      n11: real, n21: real, n31: real, n41: real,
      n12: real, n22: real, n32: real, n42: real,
      n13: real, n23: real, n33: real, n43: real,
      n14: real, n24: real, n34: real, n44: real)
    returns (t31: real, t32: real, t33: real, t34: real, u11: real, u12: real, u13: real, u14: real)
    ensures t31 == n22 * n34 * n41 - n24 * n32 * n41 + n24 * n31 * n42 - n21 * n34 * n42 - n22 * n31 * n44 + n21 * n32 * n44
    ensures t32 == n14 * n32 * n41 - n12 * n34 * n41 - n14 * n31 * n42 + n11 * n34 * n42 + n12 * n31 * n44 - n11 * n32 * n44
    ensures t33 == n12 * n24 * n41 - n14 * n22 * n41 + n14 * n21 * n42 - n11 * n24 * n42 - n12 * n21 * n44 + n11 * n22 * n44
    ensures t34 == n14 * n22 * n31 - n12 * n24 * n31 - n14 * n21 * n32 + n11 * n24 * n32 + n12 * n21 * n34 - n11 * n22 * n34
    ensures u11 == n23 * n34 * n42 - n24 * n33 * n42 + n24 * n32 * n43 - n22 * n34 * n43 - n23 * n32 * n44 + n22 * n33 * n44
    ensures u12 == n14 * n33 * n42 - n13 * n34 * n42 - n14 * n32 * n43 + n12 * n34 * n43 + n13 * n32 * n44 - n12 * n33 * n44
    ensures u13 == n13 * n24 * n42 - n14 * n23 * n42 + n14 * n22 * n43 - n12 * n24 * n43 - n13 * n22 * n44 + n12 * n23 * n44
    ensures u14 == n14 * n23 * n32 - n13 * n24 * n32 - n14 * n22 * n33 + n12 * n24 * n33 + n13 * n22 * n34 - n12 * n23 * n34
    ensures t31 * n13 + t32 * n23 + t33 * n33 + t34 * n43 == n11 * u11 + n21 * u12 + n31 * u13 + n41 * u14
  {
    t31, t32, t33, t34, u11, u12, u13, u14 :=
      n22 * n34 * n41 - n24 * n32 * n41 + n24 * n31 * n42 - n21 * n34 * n42 - n22 * n31 * n44 + n21 * n32 * n44,
      n14 * n32 * n41 - n12 * n34 * n41 - n14 * n31 * n42 + n11 * n34 * n42 + n12 * n31 * n44 - n11 * n32 * n44,
      n12 * n24 * n41 - n14 * n22 * n41 + n14 * n21 * n42 - n11 * n24 * n42 - n12 * n21 * n44 + n11 * n22 * n44,
      n14 * n22 * n31 - n12 * n24 * n31 - n14 * n21 * n32 + n11 * n24 * n32 + n12 * n21 * n34 - n11 * n22 * n34,
      n23 * n34 * n42 - n24 * n33 * n42 + n24 * n32 * n43 - n22 * n34 * n43 - n23 * n32 * n44 + n22 * n33 * n44,
      n14 * n33 * n42 - n13 * n34 * n42 - n14 * n32 * n43 + n12 * n34 * n43 + n13 * n32 * n44 - n12 * n33 * n44,
      n13 * n24 * n42 - n14 * n23 * n42 + n14 * n22 * n43 - n12 * n24 * n43 - n13 * n22 * n44 + n12 * n23 * n44,
      n14 * n23 * n32 - n13 * n24 * n32 - n14 * n22 * n33 + n12 * n24 * n33 + n13 * n22 * n34 - n12 * n23 * n34;
  }

  /** Row 3 of the adjugate times column 4 of m. */
  lemma CofactorLeft34(
      n11: real, n21: real, n31: real, n41: real,
      n12: real, n22: real, n32: real, n42: real,
      n13: real, n23: real, n33: real, n43: real,
      n14: real, n24: real, n34: real, n44: real)
    returns (t31: real, t32: real, t33: real, t34: real)
    ensures t31 == n22 * n34 * n41 - n24 * n32 * n41 + n24 * n31 * n42 - n21 * n34 * n42 - n22 * n31 * n44 + n21 * n32 * n44
    ensures t32 == n14 * n32 * n41 - n12 * n34 * n41 - n14 * n31 * n42 + n11 * n34 * n42 + n12 * n31 * n44 - n11 * n32 * n44
    ensures t33 == n12 * n24 * n41 - n14 * n22 * n41 + n14 * n21 * n42 - n11 * n24 * n42 - n12 * n21 * n44 + n11 * n22 * n44
    ensures t34 == n14 * n22 * n31 - n12 * n24 * n31 - n14 * n21 * n32 + n11 * n24 * n32 + n12 * n21 * n34 - n11 * n22 * n34
    ensures t31 * n14 + t32 * n24 + t33 * n34 + t34 * n44 == 0.0
  {
    t31, t32, t33, t34 :=
      n22 * n34 * n41 - n24 * n32 * n41 + n24 * n31 * n42 - n21 * n34 * n42 - n22 * n31 * n44 + n21 * n32 * n44,
      n14 * n32 * n41 - n12 * n34 * n41 - n14 * n31 * n42 + n11 * n34 * n42 + n12 * n31 * n44 - n11 * n32 * n44,
      n12 * n24 * n41 - n14 * n22 * n41 + n14 * n21 * n42 - n11 * n24 * n42 - n12 * n21 * n44 + n11 * n22 * n44,
      n14 * n22 * n31 - n12 * n24 * n31 - n14 * n21 * n32 + n11 * n24 * n32 + n12 * n21 * n34 - n11 * n22 * n34;
  }

  /** Row 4 of the adjugate times column 1 of m. */
  lemma CofactorLeft41(
      n11: real, n21: real, n31: real, n41: real,
      n12: real, n22: real, n32: real, n42: real,
      n13: real, n23: real, n33: real, n43: real,
      n14: real, n24: real, n34: real, n44: real)
    returns (t41: real, t42: real, t43: real, t44: real)
    ensures t41 == n23 * n32 * n41 - n22 * n33 * n41 - n23 * n31 * n42 + n21 * n33 * n42 + n22 * n31 * n43 - n21 * n32 * n43
    ensures t42 == n12 * n33 * n41 - n13 * n32 * n41 + n13 * n31 * n42 - n11 * n33 * n42 - n12 * n31 * n43 + n11 * n32 * n43
    ensures t43 == n13 * n22 * n41 - n12 * n23 * n41 - n13 * n21 * n42 + n11 * n23 * n42 + n12 * n21 * n43 - n11 * n22 * n43
    ensures t44 == n12 * n23 * n31 - n13 * n22 * n31 + n13 * n21 * n32 - n11 * n23 * n32 - n12 * n21 * n33 + n11 * n22 * n33
    ensures t41 * n11 + t42 * n21 + t43 * n31 + t44 * n41 == 0.0
  {
    t41, t42, t43, t44 :=
      n23 * n32 * n41 - n22 * n33 * n41 - n23 * n31 * n42 + n21 * n33 * n42 + n22 * n31 * n43 - n21 * n32 * n43,
      n12 * n33 * n41 - n13 * n32 * n41 + n13 * n31 * n42 - n11 * n33 * n42 - n12 * n31 * n43 + n11 * n32 * n43,
      n13 * n22 * n41 - n12 * n23 * n41 - n13 * n21 * n42 + n11 * n23 * n42 + n12 * n21 * n43 - n11 * n22 * n43,
      n12 * n23 * n31 - n13 * n22 * n31 + n13 * n21 * n32 - n11 * n23 * n32 - n12 * n21 * n33 + n11 * n22 * n33;
  }

  /** Row 4 of the adjugate times column 2 of m. */
  lemma CofactorLeft42(
      n11: real, n21: real, n31: real, n41: real,
      n12: real, n22: real, n32: real, n42: real,
      n13: real, n23: real, n33: real, n43: real,
      n14: real, n24: real, n34: real, n44: real)
    returns (t41: real, t42: real, t43: real, t44: real)
    ensures t41 == n23 * n32 * n41 - n22 * n33 * n41 - n23 * n31 * n42 + n21 * n33 * n42 + n22 * n31 * n43 - n21 * n32 * n43
    ensures t42 == n12 * n33 * n41 - n13 * n32 * n41 + n13 * n31 * n42 - n11 * n33 * n42 - n12 * n31 * n43 + n11 * n32 * n43
    ensures t43 == n13 * n22 * n41 - n12 * n23 * n41 - n13 * n21 * n42 + n11 * n23 * n42 + n12 * n21 * n43 - n11 * n22 * n43
    ensures t44 == n12 * n23 * n31 - n13 * n22 * n31 + n13 * n21 * n32 - n11 * n23 * n32 - n12 * n21 * n33 + n11 * n22 * n33
    ensures t41 * n12 + t42 * n22 + t43 * n32 + t44 * n42 == 0.0
  {
    t41, t42, t43, t44 :=
      n23 * n32 * n41 - n22 * n33 * n41 - n23 * n31 * n42 + n21 * n33 * n42 + n22 * n31 * n43 - n21 * n32 * n43,
      n12 * n33 * n41 - n13 * n32 * n41 + n13 * n31 * n42 - n11 * n33 * n42 - n12 * n31 * n43 + n11 * n32 * n43,
      n13 * n22 * n41 - n12 * n23 * n41 - n13 * n21 * n42 + n11 * n23 * n42 + n12 * n21 * n43 - n11 * n22 * n43,
      n12 * n23 * n31 - n13 * n22 * n31 + n13 * n21 * n32 - n11 * n23 * n32 - n12 * n21 * n33 + n11 * n22 * n33;
  }

  /** Row 4 of the adjugate times column 3 of m. */
  lemma CofactorLeft43(
      n11: real, n21: real, n31: real, n41: real,
      n12: real, n22: real, n32: real, n42: real,
      n13: real, n23: real, n33: real, n43: real,
      n14: real, n24: real, n34: real, n44: real)
    returns (t41: real, t42: real, t43: real, t44: real)
    ensures t41 == n23 * n32 * n41 - n22 * n33 * n41 - n23 * n31 * n42 + n21 * n33 * n42 + n22 * n31 * n43 - n21 * n32 * n43
    ensures t42 == n12 * n33 * n41 - n13 * n32 * n41 + n13 * n31 * n42 - n11 * n33 * n42 - n12 * n31 * n43 + n11 * n32 * n43
    ensures t43 == n13 * n22 * n41 - n12 * n23 * n41 - n13 * n21 * n42 + n11 * n23 * n42 + n12 * n21 * n43 - n11 * n22 * n43
    ensures t44 == n12 * n23 * n31 - n13 * n22 * n31 + n13 * n21 * n32 - n11 * n23 * n32 - n12 * n21 * n33 + n11 * n22 * n33
    ensures t41 * n13 + t42 * n23 + t43 * n33 + t44 * n43 == 0.0
  {
    t41, t42, t43, t44 :=
      n23 * n32 * n41 - n22 * n33 * n41 - n23 * n31 * n42 + n21 * n33 * n42 + n22 * n31 * n43 - n21 * n32 * n43,
      n12 * n33 * n41 - n13 * n32 * n41 + n13 * n31 * n42 - n11 * n33 * n42 - n12 * n31 * n43 + n11 * n32 * n43,
      n13 * n22 * n41 - n12 * n23 * n41 - n13 * n21 * n42 + n11 * n23 * n42 + n12 * n21 * n43 - n11 * n22 * n43,
      n12 * n23 * n31 - n13 * n22 * n31 + n13 * n21 * n32 - n11 * n23 * n32 - n12 * n21 * n33 + n11 * n22 * n33;
  }

  /** Row 4 of the adjugate times column 4 of m. */
  lemma CofactorLeft44(
      n11: real, n21: real, n31: real, n41: real,
      n12: real, n22: real, n32: real, n42: real,
      n13: real, n23: real, n33: real, n43: real,
      n14: real, n24: real, n34: real, n44: real)
    returns (t41: real, t42: real, t43: real, t44: real, u11: real, u12: real, u13: real, u14: real)
    ensures t41 == n23 * n32 * n41 - n22 * n33 * n41 - n23 * n31 * n42 + n21 * n33 * n42 + n22 * n31 * n43 - n21 * n32 * n43
    ensures t42 == n12 * n33 * n41 - n13 * n32 * n41 + n13 * n31 * n42 - n11 * n33 * n42 - n12 * n31 * n43 + n11 * n32 * n43
    ensures t43 == n13 * n22 * n41 - n12 * n23 * n41 - n13 * n21 * n42 + n11 * n23 * n42 + n12 * n21 * n43 - n11 * n22 * n43
    ensures t44 == n12 * n23 * n31 - n13 * n22 * n31 + n13 * n21 * n32 - n11 * n23 * n32 - n12 * n21 * n33 + n11 * n22 * n33
    ensures u11 == n23 * n34 * n42 - n24 * n33 * n42 + n24 * n32 * n43 - n22 * n34 * n43 - n23 * n32 * n44 + n22 * n33 * n44
    ensures u12 == n14 * n33 * n42 - n13 * n34 * n42 - n14 * n32 * n43 + n12 * n34 * n43 + n13 * n32 * n44 - n12 * n33 * n44
    ensures u13 == n13 * n24 * n42 - n14 * n23 * n42 + n14 * n22 * n43 - n12 * n24 * n43 - n13 * n22 * n44 + n12 * n23 * n44
    ensures u14 == n14 * n23 * n32 - n13 * n24 * n32 - n14 * n22 * n33 + n12 * n24 * n33 + n13 * n22 * n34 - n12 * n23 * n34
    ensures t41 * n14 + t42 * n24 + t43 * n34 + t44 * n44 == n11 * u11 + n21 * u12 + n31 * u13 + n41 * u14
  {
    t41, t42, t43, t44, u11, u12, u13, u14 :=
      n23 * n32 * n41 - n22 * n33 * n41 - n23 * n31 * n42 + n21 * n33 * n42 + n22 * n31 * n43 - n21 * n32 * n43,
      n12 * n33 * n41 - n13 * n32 * n41 + n13 * n31 * n42 - n11 * n33 * n42 - n12 * n31 * n43 + n11 * n32 * n43,
      n13 * n22 * n41 - n12 * n23 * n41 - n13 * n21 * n42 + n11 * n23 * n42 + n12 * n21 * n43 - n11 * n22 * n43,
      n12 * n23 * n31 - n13 * n22 * n31 + n13 * n21 * n32 - n11 * n23 * n32 - n12 * n21 * n33 + n11 * n22 * n33,
      n23 * n34 * n42 - n24 * n33 * n42 + n24 * n32 * n43 - n22 * n34 * n43 - n23 * n32 * n44 + n22 * n33 * n44,
      n14 * n33 * n42 - n13 * n34 * n42 - n14 * n32 * n43 + n12 * n34 * n43 + n13 * n32 * n44 - n12 * n33 * n44,
      n13 * n24 * n42 - n14 * n23 * n42 + n14 * n22 * n43 - n12 * n24 * n43 - n13 * n22 * n44 + n12 * n23 * n44,
      n14 * n23 * n32 - n13 * n24 * n32 - n14 * n22 * n33 + n12 * n24 * n33 + n13 * n22 * n34 - n12 * n23 * n34;
  }

  /** Row 1 of m times column 1 of the adjugate. */
  lemma CofactorRight11(
      n11: real, n21: real, n31: real, n41: real,
      n12: real, n22: real, n32: real, n42: real,
      n13: real, n23: real, n33: real, n43: real,
      n14: real, n24: real, n34: real, n44: real)
    returns (t11: real, t21: real, t31: real, t41: real, u11: real, u12: real, u13: real, u14: real)
    ensures t11 == n23 * n34 * n42 - n24 * n33 * n42 + n24 * n32 * n43 - n22 * n34 * n43 - n23 * n32 * n44 + n22 * n33 * n44
    ensures t21 == n24 * n33 * n41 - n23 * n34 * n41 - n24 * n31 * n43 + n21 * n34 * n43 + n23 * n31 * n44 - n21 * n33 * n44
    ensures t31 == n22 * n34 * n41 - n24 * n32 * n41 + n24 * n31 * n42 - n21 * n34 * n42 - n22 * n31 * n44 + n21 * n32 * n44
    ensures t41 == n23 * n32 * n41 - n22 * n33 * n41 - n23 * n31 * n42 + n21 * n33 * n42 + n22 * n31 * n43 - n21 * n32 * n43
    ensures u11 == n23 * n34 * n42 - n24 * n33 * n42 + n24 * n32 * n43 - n22 * n34 * n43 - n23 * n32 * n44 + n22 * n33 * n44
    ensures u12 == n14 * n33 * n42 - n13 * n34 * n42 - n14 * n32 * n43 + n12 * n34 * n43 + n13 * n32 * n44 - n12 * n33 * n44
    ensures u13 == n13 * n24 * n42 - n14 * n23 * n42 + n14 * n22 * n43 - n12 * n24 * n43 - n13 * n22 * n44 + n12 * n23 * n44
    ensures u14 == n14 * n23 * n32 - n13 * n24 * n32 - n14 * n22 * n33 + n12 * n24 * n33 + n13 * n22 * n34 - n12 * n23 * n34
    ensures n11 * t11 + n12 * t21 + n13 * t31 + n14 * t41 == n11 * u11 + n21 * u12 + n31 * u13 + n41 * u14
  {
    t11, t21, t31, t41, u11, u12, u13, u14 :=
      n23 * n34 * n42 - n24 * n33 * n42 + n24 * n32 * n43 - n22 * n34 * n43 - n23 * n32 * n44 + n22 * n33 * n44,
      n24 * n33 * n41 - n23 * n34 * n41 - n24 * n31 * n43 + n21 * n34 * n43 + n23 * n31 * n44 - n21 * n33 * n44,
      n22 * n34 * n41 - n24 * n32 * n41 + n24 * n31 * n42 - n21 * n34 * n42 - n22 * n31 * n44 + n21 * n32 * n44,
      n23 * n32 * n41 - n22 * n33 * n41 - n23 * n31 * n42 + n21 * n33 * n42 + n22 * n31 * n43 - n21 * n32 * n43,
      n23 * n34 * n42 - n24 * n33 * n42 + n24 * n32 * n43 - n22 * n34 * n43 - n23 * n32 * n44 + n22 * n33 * n44,
      n14 * n33 * n42 - n13 * n34 * n42 - n14 * n32 * n43 + n12 * n34 * n43 + n13 * n32 * n44 - n12 * n33 * n44,
      n13 * n24 * n42 - n14 * n23 * n42 + n14 * n22 * n43 - n12 * n24 * n43 - n13 * n22 * n44 + n12 * n23 * n44,
      n14 * n23 * n32 - n13 * n24 * n32 - n14 * n22 * n33 + n12 * n24 * n33 + n13 * n22 * n34 - n12 * n23 * n34;
  }

  /** Row 2 of m times column 1 of the adjugate. */
  lemma CofactorRight21(
      n11: real, n21: real, n31: real, n41: real,
      n12: real, n22: real, n32: real, n42: real,
      n13: real, n23: real, n33: real, n43: real,
      n14: real, n24: real, n34: real, n44: real)
    returns (t11: real, t21: real, t31: real, t41: real)
    ensures t11 == n23 * n34 * n42 - n24 * n33 * n42 + n24 * n32 * n43 - n22 * n34 * n43 - n23 * n32 * n44 + n22 * n33 * n44
    ensures t21 == n24 * n33 * n41 - n23 * n34 * n41 - n24 * n31 * n43 + n21 * n34 * n43 + n23 * n31 * n44 - n21 * n33 * n44
    ensures t31 == n22 * n34 * n41 - n24 * n32 * n41 + n24 * n31 * n42 - n21 * n34 * n42 - n22 * n31 * n44 + n21 * n32 * n44
    ensures t41 == n23 * n32 * n41 - n22 * n33 * n41 - n23 * n31 * n42 + n21 * n33 * n42 + n22 * n31 * n43 - n21 * n32 * n43
    ensures n21 * t11 + n22 * t21 + n23 * t31 + n24 * t41 == 0.0
  {
    t11, t21, t31, t41 :=
      n23 * n34 * n42 - n24 * n33 * n42 + n24 * n32 * n43 - n22 * n34 * n43 - n23 * n32 * n44 + n22 * n33 * n44,
      n24 * n33 * n41 - n23 * n34 * n41 - n24 * n31 * n43 + n21 * n34 * n43 + n23 * n31 * n44 - n21 * n33 * n44,
      n22 * n34 * n41 - n24 * n32 * n41 + n24 * n31 * n42 - n21 * n34 * n42 - n22 * n31 * n44 + n21 * n32 * n44,
      n23 * n32 * n41 - n22 * n33 * n41 - n23 * n31 * n42 + n21 * n33 * n42 + n22 * n31 * n43 - n21 * n32 * n43;
  }

  /** Row 3 of m times column 1 of the adjugate. */
  lemma CofactorRight31(
      n11: real, n21: real, n31: real, n41: real,
      n12: real, n22: real, n32: real, n42: real,
      n13: real, n23: real, n33: real, n43: real,
      n14: real, n24: real, n34: real, n44: real)
    returns (t11: real, t21: real, t31: real, t41: real)
    ensures t11 == n23 * n34 * n42 - n24 * n33 * n42 + n24 * n32 * n43 - n22 * n34 * n43 - n23 * n32 * n44 + n22 * n33 * n44
    ensures t21 == n24 * n33 * n41 - n23 * n34 * n41 - n24 * n31 * n43 + n21 * n34 * n43 + n23 * n31 * n44 - n21 * n33 * n44
    ensures t31 == n22 * n34 * n41 - n24 * n32 * n41 + n24 * n31 * n42 - n21 * n34 * n42 - n22 * n31 * n44 + n21 * n32 * n44
    ensures t41 == n23 * n32 * n41 - n22 * n33 * n41 - n23 * n31 * n42 + n21 * n33 * n42 + n22 * n31 * n43 - n21 * n32 * n43
    ensures n31 * t11 + n32 * t21 + n33 * t31 + n34 * t41 == 0.0
  {
    t11, t21, t31, t41 :=
      n23 * n34 * n42 - n24 * n33 * n42 + n24 * n32 * n43 - n22 * n34 * n43 - n23 * n32 * n44 + n22 * n33 * n44,
      n24 * n33 * n41 - n23 * n34 * n41 - n24 * n31 * n43 + n21 * n34 * n43 + n23 * n31 * n44 - n21 * n33 * n44,
      n22 * n34 * n41 - n24 * n32 * n41 + n24 * n31 * n42 - n21 * n34 * n42 - n22 * n31 * n44 + n21 * n32 * n44,
      n23 * n32 * n41 - n22 * n33 * n41 - n23 * n31 * n42 + n21 * n33 * n42 + n22 * n31 * n43 - n21 * n32 * n43;
  }

  /** Row 4 of m times column 1 of the adjugate. */
  lemma CofactorRight41(
      n11: real, n21: real, n31: real, n41: real,
      n12: real, n22: real, n32: real, n42: real,
      n13: real, n23: real, n33: real, n43: real,
      n14: real, n24: real, n34: real, n44: real)
    returns (t11: real, t21: real, t31: real, t41: real)
    ensures t11 == n23 * n34 * n42 - n24 * n33 * n42 + n24 * n32 * n43 - n22 * n34 * n43 - n23 * n32 * n44 + n22 * n33 * n44
    ensures t21 == n24 * n33 * n41 - n23 * n34 * n41 - n24 * n31 * n43 + n21 * n34 * n43 + n23 * n31 * n44 - n21 * n33 * n44
    ensures t31 == n22 * n34 * n41 - n24 * n32 * n41 + n24 * n31 * n42 - n21 * n34 * n42 - n22 * n31 * n44 + n21 * n32 * n44
    ensures t41 == n23 * n32 * n41 - n22 * n33 * n41 - n23 * n31 * n42 + n21 * n33 * n42 + n22 * n31 * n43 - n21 * n32 * n43
    ensures n41 * t11 + n42 * t21 + n43 * t31 + n44 * t41 == 0.0
  {
    t11, t21, t31, t41 :=
      n23 * n34 * n42 - n24 * n33 * n42 + n24 * n32 * n43 - n22 * n34 * n43 - n23 * n32 * n44 + n22 * n33 * n44,
      n24 * n33 * n41 - n23 * n34 * n41 - n24 * n31 * n43 + n21 * n34 * n43 + n23 * n31 * n44 - n21 * n33 * n44,
      n22 * n34 * n41 - n24 * n32 * n41 + n24 * n31 * n42 - n21 * n34 * n42 - n22 * n31 * n44 + n21 * n32 * n44,
      n23 * n32 * n41 - n22 * n33 * n41 - n23 * n31 * n42 + n21 * n33 * n42 + n22 * n31 * n43 - n21 * n32 * n43;
  }

  /** Row 1 of m times column 2 of the adjugate. */
  lemma CofactorRight12(
      n11: real, n21: real, n31: real, n41: real,
      n12: real, n22: real, n32: real, n42: real,
      n13: real, n23: real, n33: real, n43: real,
      n14: real, n24: real, n34: real, n44: real)
    returns (t12: real, t22: real, t32: real, t42: real)
    ensures t12 == n14 * n33 * n42 - n13 * n34 * n42 - n14 * n32 * n43 + n12 * n34 * n43 + n13 * n32 * n44 - n12 * n33 * n44
    ensures t22 == n13 * n34 * n41 - n14 * n33 * n41 + n14 * n31 * n43 - n11 * n34 * n43 - n13 * n31 * n44 + n11 * n33 * n44
    ensures t32 == n14 * n32 * n41 - n12 * n34 * n41 - n14 * n31 * n42 + n11 * n34 * n42 + n12 * n31 * n44 - n11 * n32 * n44
    ensures t42 == n12 * n33 * n41 - n13 * n32 * n41 + n13 * n31 * n42 - n11 * n33 * n42 - n12 * n31 * n43 + n11 * n32 * n43
    ensures n11 * t12 + n12 * t22 + n13 * t32 + n14 * t42 == 0.0
  {
    t12, t22, t32, t42 :=
      n14 * n33 * n42 - n13 * n34 * n42 - n14 * n32 * n43 + n12 * n34 * n43 + n13 * n32 * n44 - n12 * n33 * n44,
      n13 * n34 * n41 - n14 * n33 * n41 + n14 * n31 * n43 - n11 * n34 * n43 - n13 * n31 * n44 + n11 * n33 * n44,
      n14 * n32 * n41 - n12 * n34 * n41 - n14 * n31 * n42 + n11 * n34 * n42 + n12 * n31 * n44 - n11 * n32 * n44,
      n12 * n33 * n41 - n13 * n32 * n41 + n13 * n31 * n42 - n11 * n33 * n42 - n12 * n31 * n43 + n11 * n32 * n43;
  }

  /** Row 2 of m times column 2 of the adjugate. */
  lemma CofactorRight22(
      n11: real, n21: real, n31: real, n41: real,
      n12: real, n22: real, n32: real, n42: real,
      n13: real, n23: real, n33: real, n43: real,
      n14: real, n24: real, n34: real, n44: real)
    returns (t12: real, t22: real, t32: real, t42: real, u11: real, u12: real, u13: real, u14: real)
    ensures t12 == n14 * n33 * n42 - n13 * n34 * n42 - n14 * n32 * n43 + n12 * n34 * n43 + n13 * n32 * n44 - n12 * n33 * n44
    ensures t22 == n13 * n34 * n41 - n14 * n33 * n41 + n14 * n31 * n43 - n11 * n34 * n43 - n13 * n31 * n44 + n11 * n33 * n44
    ensures t32 == n14 * n32 * n41 - n12 * n34 * n41 - n14 * n31 * n42 + n11 * n34 * n42 + n12 * n31 * n44 - n11 * n32 * n44
    ensures t42 == n12 * n33 * n41 - n13 * n32 * n41 + n13 * n31 * n42 - n11 * n33 * n42 - n12 * n31 * n43 + n11 * n32 * n43
    ensures u11 == n23 * n34 * n42 - n24 * n33 * n42 + n24 * n32 * n43 - n22 * n34 * n43 - n23 * n32 * n44 + n22 * n33 * n44
    ensures u12 == n14 * n33 * n42 - n13 * n34 * n42 - n14 * n32 * n43 + n12 * n34 * n43 + n13 * n32 * n44 - n12 * n33 * n44
    ensures u13 == n13 * n24 * n42 - n14 * n23 * n42 + n14 * n22 * n43 - n12 * n24 * n43 - n13 * n22 * n44 + n12 * n23 * n44
    ensures u14 == n14 * n23 * n32 - n13 * n24 * n32 - n14 * n22 * n33 + n12 * n24 * n33 + n13 * n22 * n34 - n12 * n23 * n34
    ensures n21 * t12 + n22 * t22 + n23 * t32 + n24 * t42 == n11 * u11 + n21 * u12 + n31 * u13 + n41 * u14
  {
    t12, t22, t32, t42, u11, u12, u13, u14 :=
      n14 * n33 * n42 - n13 * n34 * n42 - n14 * n32 * n43 + n12 * n34 * n43 + n13 * n32 * n44 - n12 * n33 * n44,
      n13 * n34 * n41 - n14 * n33 * n41 + n14 * n31 * n43 - n11 * n34 * n43 - n13 * n31 * n44 + n11 * n33 * n44,
      n14 * n32 * n41 - n12 * n34 * n41 - n14 * n31 * n42 + n11 * n34 * n42 + n12 * n31 * n44 - n11 * n32 * n44,
      n12 * n33 * n41 - n13 * n32 * n41 + n13 * n31 * n42 - n11 * n33 * n42 - n12 * n31 * n43 + n11 * n32 * n43,
      n23 * n34 * n42 - n24 * n33 * n42 + n24 * n32 * n43 - n22 * n34 * n43 - n23 * n32 * n44 + n22 * n33 * n44,
      n14 * n33 * n42 - n13 * n34 * n42 - n14 * n32 * n43 + n12 * n34 * n43 + n13 * n32 * n44 - n12 * n33 * n44,
      n13 * n24 * n42 - n14 * n23 * n42 + n14 * n22 * n43 - n12 * n24 * n43 - n13 * n22 * n44 + n12 * n23 * n44,
      n14 * n23 * n32 - n13 * n24 * n32 - n14 * n22 * n33 + n12 * n24 * n33 + n13 * n22 * n34 - n12 * n23 * n34;
  }

  /** Row 3 of m times column 2 of the adjugate. */
  lemma CofactorRight32(
      n11: real, n21: real, n31: real, n41: real,
      n12: real, n22: real, n32: real, n42: real,
      n13: real, n23: real, n33: real, n43: real,
      n14: real, n24: real, n34: real, n44: real)
    returns (t12: real, t22: real, t32: real, t42: real)
    ensures t12 == n14 * n33 * n42 - n13 * n34 * n42 - n14 * n32 * n43 + n12 * n34 * n43 + n13 * n32 * n44 - n12 * n33 * n44
    ensures t22 == n13 * n34 * n41 - n14 * n33 * n41 + n14 * n31 * n43 - n11 * n34 * n43 - n13 * n31 * n44 + n11 * n33 * n44
    ensures t32 == n14 * n32 * n41 - n12 * n34 * n41 - n14 * n31 * n42 + n11 * n34 * n42 + n12 * n31 * n44 - n11 * n32 * n44
    ensures t42 == n12 * n33 * n41 - n13 * n32 * n41 + n13 * n31 * n42 - n11 * n33 * n42 - n12 * n31 * n43 + n11 * n32 * n43
    ensures n31 * t12 + n32 * t22 + n33 * t32 + n34 * t42 == 0.0
  {
    t12, t22, t32, t42 :=
      n14 * n33 * n42 - n13 * n34 * n42 - n14 * n32 * n43 + n12 * n34 * n43 + n13 * n32 * n44 - n12 * n33 * n44,
      n13 * n34 * n41 - n14 * n33 * n41 + n14 * n31 * n43 - n11 * n34 * n43 - n13 * n31 * n44 + n11 * n33 * n44,
      n14 * n32 * n41 - n12 * n34 * n41 - n14 * n31 * n42 + n11 * n34 * n42 + n12 * n31 * n44 - n11 * n32 * n44,
      n12 * n33 * n41 - n13 * n32 * n41 + n13 * n31 * n42 - n11 * n33 * n42 - n12 * n31 * n43 + n11 * n32 * n43;
  }

  /** Row 4 of m times column 2 of the adjugate. */
  lemma CofactorRight42(
      n11: real, n21: real, n31: real, n41: real,
      n12: real, n22: real, n32: real, n42: real,
      n13: real, n23: real, n33: real, n43: real,
      n14: real, n24: real, n34: real, n44: real)
    returns (t12: real, t22: real, t32: real, t42: real)
    ensures t12 == n14 * n33 * n42 - n13 * n34 * n42 - n14 * n32 * n43 + n12 * n34 * n43 + n13 * n32 * n44 - n12 * n33 * n44
    ensures t22 == n13 * n34 * n41 - n14 * n33 * n41 + n14 * n31 * n43 - n11 * n34 * n43 - n13 * n31 * n44 + n11 * n33 * n44
    ensures t32 == n14 * n32 * n41 - n12 * n34 * n41 - n14 * n31 * n42 + n11 * n34 * n42 + n12 * n31 * n44 - n11 * n32 * n44
    ensures t42 == n12 * n33 * n41 - n13 * n32 * n41 + n13 * n31 * n42 - n11 * n33 * n42 - n12 * n31 * n43 + n11 * n32 * n43
    ensures n41 * t12 + n42 * t22 + n43 * t32 + n44 * t42 == 0.0
  {
    t12, t22, t32, t42 :=
      n14 * n33 * n42 - n13 * n34 * n42 - n14 * n32 * n43 + n12 * n34 * n43 + n13 * n32 * n44 - n12 * n33 * n44,
      n13 * n34 * n41 - n14 * n33 * n41 + n14 * n31 * n43 - n11 * n34 * n43 - n13 * n31 * n44 + n11 * n33 * n44,
      n14 * n32 * n41 - n12 * n34 * n41 - n14 * n31 * n42 + n11 * n34 * n42 + n12 * n31 * n44 - n11 * n32 * n44,
      n12 * n33 * n41 - n13 * n32 * n41 + n13 * n31 * n42 - n11 * n33 * n42 - n12 * n31 * n43 + n11 * n32 * n43;
  }

  /** Row 1 of m times column 3 of the adjugate. */
  lemma CofactorRight13(
      n11: real, n21: real, n31: real, n41: real,
      n12: real, n22: real, n32: real, n42: real,
      n13: real, n23: real, n33: real, n43: real,
      n14: real, n24: real, n34: real, n44: real)
    returns (t13: real, t23: real, t33: real, t43: real)
    ensures t13 == n13 * n24 * n42 - n14 * n23 * n42 + n14 * n22 * n43 - n12 * n24 * n43 - n13 * n22 * n44 + n12 * n23 * n44
    ensures t23 == n14 * n23 * n41 - n13 * n24 * n41 - n14 * n21 * n43 + n11 * n24 * n43 + n13 * n21 * n44 - n11 * n23 * n44
    ensures t33 == n12 * n24 * n41 - n14 * n22 * n41 + n14 * n21 * n42 - n11 * n24 * n42 - n12 * n21 * n44 + n11 * n22 * n44
    ensures t43 == n13 * n22 * n41 - n12 * n23 * n41 - n13 * n21 * n42 + n11 * n23 * n42 + n12 * n21 * n43 - n11 * n22 * n43
    ensures n11 * t13 + n12 * t23 + n13 * t33 + n14 * t43 == 0.0
  {
    t13, t23, t33, t43 :=
      n13 * n24 * n42 - n14 * n23 * n42 + n14 * n22 * n43 - n12 * n24 * n43 - n13 * n22 * n44 + n12 * n23 * n44,
      n14 * n23 * n41 - n13 * n24 * n41 - n14 * n21 * n43 + n11 * n24 * n43 + n13 * n21 * n44 - n11 * n23 * n44,
      n12 * n24 * n41 - n14 * n22 * n41 + n14 * n21 * n42 - n11 * n24 * n42 - n12 * n21 * n44 + n11 * n22 * n44,
      n13 * n22 * n41 - n12 * n23 * n41 - n13 * n21 * n42 + n11 * n23 * n42 + n12 * n21 * n43 - n11 * n22 * n43;
  }

  /** Row 2 of m times column 3 of the adjugate. */
  lemma CofactorRight23(
      n11: real, n21: real, n31: real, n41: real,
      n12: real, n22: real, n32: real, n42: real,
      n13: real, n23: real, n33: real, n43: real,
      n14: real, n24: real, n34: real, n44: real)
    returns (t13: real, t23: real, t33: real, t43: real)
    ensures t13 == n13 * n24 * n42 - n14 * n23 * n42 + n14 * n22 * n43 - n12 * n24 * n43 - n13 * n22 * n44 + n12 * n23 * n44
    ensures t23 == n14 * n23 * n41 - n13 * n24 * n41 - n14 * n21 * n43 + n11 * n24 * n43 + n13 * n21 * n44 - n11 * n23 * n44
    ensures t33 == n12 * n24 * n41 - n14 * n22 * n41 + n14 * n21 * n42 - n11 * n24 * n42 - n12 * n21 * n44 + n11 * n22 * n44
    ensures t43 == n13 * n22 * n41 - n12 * n23 * n41 - n13 * n21 * n42 + n11 * n23 * n42 + n12 * n21 * n43 - n11 * n22 * n43
    ensures n21 * t13 + n22 * t23 + n23 * t33 + n24 * t43 == 0.0
  {
    t13, t23, t33, t43 :=
      n13 * n24 * n42 - n14 * n23 * n42 + n14 * n22 * n43 - n12 * n24 * n43 - n13 * n22 * n44 + n12 * n23 * n44,
      n14 * n23 * n41 - n13 * n24 * n41 - n14 * n21 * n43 + n11 * n24 * n43 + n13 * n21 * n44 - n11 * n23 * n44,
      n12 * n24 * n41 - n14 * n22 * n41 + n14 * n21 * n42 - n11 * n24 * n42 - n12 * n21 * n44 + n11 * n22 * n44,
      n13 * n22 * n41 - n12 * n23 * n41 - n13 * n21 * n42 + n11 * n23 * n42 + n12 * n21 * n43 - n11 * n22 * n43;
  }

  /** Row 3 of m times column 3 of the adjugate. */
  lemma CofactorRight33(
      n11: real, n21: real, n31: real, n41: real,
      n12: real, n22: real, n32: real, n42: real,
      n13: real, n23: real, n33: real, n43: real,
      n14: real, n24: real, n34: real, n44: real)
    returns (t13: real, t23: real, t33: real, t43: real, u11: real, u12: real, u13: real, u14: real)
    ensures t13 == n13 * n24 * n42 - n14 * n23 * n42 + n14 * n22 * n43 - n12 * n24 * n43 - n13 * n22 * n44 + n12 * n23 * n44
    ensures t23 == n14 * n23 * n41 - n13 * n24 * n41 - n14 * n21 * n43 + n11 * n24 * n43 + n13 * n21 * n44 - n11 * n23 * n44
    ensures t33 == n12 * n24 * n41 - n14 * n22 * n41 + n14 * n21 * n42 - n11 * n24 * n42 - n12 * n21 * n44 + n11 * n22 * n44
    ensures t43 == n13 * n22 * n41 - n12 * n23 * n41 - n13 * n21 * n42 + n11 * n23 * n42 + n12 * n21 * n43 - n11 * n22 * n43
    ensures u11 == n23 * n34 * n42 - n24 * n33 * n42 + n24 * n32 * n43 - n22 * n34 * n43 - n23 * n32 * n44 + n22 * n33 * n44
    ensures u12 == n14 * n33 * n42 - n13 * n34 * n42 - n14 * n32 * n43 + n12 * n34 * n43 + n13 * n32 * n44 - n12 * n33 * n44
    ensures u13 == n13 * n24 * n42 - n14 * n23 * n42 + n14 * n22 * n43 - n12 * n24 * n43 - n13 * n22 * n44 + n12 * n23 * n44
    ensures u14 == n14 * n23 * n32 - n13 * n24 * n32 - n14 * n22 * n33 + n12 * n24 * n33 + n13 * n22 * n34 - n12 * n23 * n34
    ensures n31 * t13 + n32 * t23 + n33 * t33 + n34 * t43 == n11 * u11 + n21 * u12 + n31 * u13 + n41 * u14
  {
    t13, t23, t33, t43, u11, u12, u13, u14 :=
      n13 * n24 * n42 - n14 * n23 * n42 + n14 * n22 * n43 - n12 * n24 * n43 - n13 * n22 * n44 + n12 * n23 * n44,
      n14 * n23 * n41 - n13 * n24 * n41 - n14 * n21 * n43 + n11 * n24 * n43 + n13 * n21 * n44 - n11 * n23 * n44,
      n12 * n24 * n41 - n14 * n22 * n41 + n14 * n21 * n42 - n11 * n24 * n42 - n12 * n21 * n44 + n11 * n22 * n44,
      n13 * n22 * n41 - n12 * n23 * n41 - n13 * n21 * n42 + n11 * n23 * n42 + n12 * n21 * n43 - n11 * n22 * n43,
      n23 * n34 * n42 - n24 * n33 * n42 + n24 * n32 * n43 - n22 * n34 * n43 - n23 * n32 * n44 + n22 * n33 * n44,
      n14 * n33 * n42 - n13 * n34 * n42 - n14 * n32 * n43 + n12 * n34 * n43 + n13 * n32 * n44 - n12 * n33 * n44,
      n13 * n24 * n42 - n14 * n23 * n42 + n14 * n22 * n43 - n12 * n24 * n43 - n13 * n22 * n44 + n12 * n23 * n44,
      n14 * n23 * n32 - n13 * n24 * n32 - n14 * n22 * n33 + n12 * n24 * n33 + n13 * n22 * n34 - n12 * n23 * n34;
  }

  /** Row 4 of m times column 3 of the adjugate. */
  lemma CofactorRight43(
      n11: real, n21: real, n31: real, n41: real,
      n12: real, n22: real, n32: real, n42: real,
      n13: real, n23: real, n33: real, n43: real,
      n14: real, n24: real, n34: real, n44: real)
    returns (t13: real, t23: real, t33: real, t43: real)
    ensures t13 == n13 * n24 * n42 - n14 * n23 * n42 + n14 * n22 * n43 - n12 * n24 * n43 - n13 * n22 * n44 + n12 * n23 * n44
    ensures t23 == n14 * n23 * n41 - n13 * n24 * n41 - n14 * n21 * n43 + n11 * n24 * n43 + n13 * n21 * n44 - n11 * n23 * n44
    ensures t33 == n12 * n24 * n41 - n14 * n22 * n41 + n14 * n21 * n42 - n11 * n24 * n42 - n12 * n21 * n44 + n11 * n22 * n44
    ensures t43 == n13 * n22 * n41 - n12 * n23 * n41 - n13 * n21 * n42 + n11 * n23 * n42 + n12 * n21 * n43 - n11 * n22 * n43
    ensures n41 * t13 + n42 * t23 + n43 * t33 + n44 * t43 == 0.0
  {
    t13, t23, t33, t43 :=
      n13 * n24 * n42 - n14 * n23 * n42 + n14 * n22 * n43 - n12 * n24 * n43 - n13 * n22 * n44 + n12 * n23 * n44,
      n14 * n23 * n41 - n13 * n24 * n41 - n14 * n21 * n43 + n11 * n24 * n43 + n13 * n21 * n44 - n11 * n23 * n44,
      n12 * n24 * n41 - n14 * n22 * n41 + n14 * n21 * n42 - n11 * n24 * n42 - n12 * n21 * n44 + n11 * n22 * n44,
      n13 * n22 * n41 - n12 * n23 * n41 - n13 * n21 * n42 + n11 * n23 * n42 + n12 * n21 * n43 - n11 * n22 * n43;
  }

  /** Row 1 of m times column 4 of the adjugate. */
  lemma CofactorRight14(
      n11: real, n21: real, n31: real, n41: real,
      n12: real, n22: real, n32: real, n42: real,
      n13: real, n23: real, n33: real, n43: real,
      n14: real, n24: real, n34: real, n44: real)
    returns (t14: real, t24: real, t34: real, t44: real)
    ensures t14 == n14 * n23 * n32 - n13 * n24 * n32 - n14 * n22 * n33 + n12 * n24 * n33 + n13 * n22 * n34 - n12 * n23 * n34
    ensures t24 == n13 * n24 * n31 - n14 * n23 * n31 + n14 * n21 * n33 - n11 * n24 * n33 - n13 * n21 * n34 + n11 * n23 * n34
    ensures t34 == n14 * n22 * n31 - n12 * n24 * n31 - n14 * n21 * n32 + n11 * n24 * n32 + n12 * n21 * n34 - n11 * n22 * n34
    ensures t44 == n12 * n23 * n31 - n13 * n22 * n31 + n13 * n21 * n32 - n11 * n23 * n32 - n12 * n21 * n33 + n11 * n22 * n33
    ensures n11 * t14 + n12 * t24 + n13 * t34 + n14 * t44 == 0.0
  {
    t14, t24, t34, t44 :=
      n14 * n23 * n32 - n13 * n24 * n32 - n14 * n22 * n33 + n12 * n24 * n33 + n13 * n22 * n34 - n12 * n23 * n34,
      n13 * n24 * n31 - n14 * n23 * n31 + n14 * n21 * n33 - n11 * n24 * n33 - n13 * n21 * n34 + n11 * n23 * n34,
      n14 * n22 * n31 - n12 * n24 * n31 - n14 * n21 * n32 + n11 * n24 * n32 + n12 * n21 * n34 - n11 * n22 * n34,
      n12 * n23 * n31 - n13 * n22 * n31 + n13 * n21 * n32 - n11 * n23 * n32 - n12 * n21 * n33 + n11 * n22 * n33;
  }

  /** Row 2 of m times column 4 of the adjugate. */
  lemma CofactorRight24(
      n11: real, n21: real, n31: real, n41: real,
      n12: real, n22: real, n32: real, n42: real,
      n13: real, n23: real, n33: real, n43: real,
      n14: real, n24: real, n34: real, n44: real)
    returns (t14: real, t24: real, t34: real, t44: real)
    ensures t14 == n14 * n23 * n32 - n13 * n24 * n32 - n14 * n22 * n33 + n12 * n24 * n33 + n13 * n22 * n34 - n12 * n23 * n34
    ensures t24 == n13 * n24 * n31 - n14 * n23 * n31 + n14 * n21 * n33 - n11 * n24 * n33 - n13 * n21 * n34 + n11 * n23 * n34
    ensures t34 == n14 * n22 * n31 - n12 * n24 * n31 - n14 * n21 * n32 + n11 * n24 * n32 + n12 * n21 * n34 - n11 * n22 * n34
    ensures t44 == n12 * n23 * n31 - n13 * n22 * n31 + n13 * n21 * n32 - n11 * n23 * n32 - n12 * n21 * n33 + n11 * n22 * n33
    ensures n21 * t14 + n22 * t24 + n23 * t34 + n24 * t44 == 0.0
  {
    t14, t24, t34, t44 :=
      n14 * n23 * n32 - n13 * n24 * n32 - n14 * n22 * n33 + n12 * n24 * n33 + n13 * n22 * n34 - n12 * n23 * n34,
      n13 * n24 * n31 - n14 * n23 * n31 + n14 * n21 * n33 - n11 * n24 * n33 - n13 * n21 * n34 + n11 * n23 * n34,
      n14 * n22 * n31 - n12 * n24 * n31 - n14 * n21 * n32 + n11 * n24 * n32 + n12 * n21 * n34 - n11 * n22 * n34,
      n12 * n23 * n31 - n13 * n22 * n31 + n13 * n21 * n32 - n11 * n23 * n32 - n12 * n21 * n33 + n11 * n22 * n33;
  }

  /** Row 3 of m times column 4 of the adjugate. */
  lemma CofactorRight34(
      n11: real, n21: real, n31: real, n41: real,
      n12: real, n22: real, n32: real, n42: real,
      n13: real, n23: real, n33: real, n43: real,
      n14: real, n24: real, n34: real, n44: real)
    returns (t14: real, t24: real, t34: real, t44: real)
    ensures t14 == n14 * n23 * n32 - n13 * n24 * n32 - n14 * n22 * n33 + n12 * n24 * n33 + n13 * n22 * n34 - n12 * n23 * n34
    ensures t24 == n13 * n24 * n31 - n14 * n23 * n31 + n14 * n21 * n33 - n11 * n24 * n33 - n13 * n21 * n34 + n11 * n23 * n34
    ensures t34 == n14 * n22 * n31 - n12 * n24 * n31 - n14 * n21 * n32 + n11 * n24 * n32 + n12 * n21 * n34 - n11 * n22 * n34
    ensures t44 == n12 * n23 * n31 - n13 * n22 * n31 + n13 * n21 * n32 - n11 * n23 * n32 - n12 * n21 * n33 + n11 * n22 * n33
    ensures n31 * t14 + n32 * t24 + n33 * t34 + n34 * t44 == 0.0
  {
    t14, t24, t34, t44 :=
      n14 * n23 * n32 - n13 * n24 * n32 - n14 * n22 * n33 + n12 * n24 * n33 + n13 * n22 * n34 - n12 * n23 * n34,
      n13 * n24 * n31 - n14 * n23 * n31 + n14 * n21 * n33 - n11 * n24 * n33 - n13 * n21 * n34 + n11 * n23 * n34,
      n14 * n22 * n31 - n12 * n24 * n31 - n14 * n21 * n32 + n11 * n24 * n32 + n12 * n21 * n34 - n11 * n22 * n34,
      n12 * n23 * n31 - n13 * n22 * n31 + n13 * n21 * n32 - n11 * n23 * n32 - n12 * n21 * n33 + n11 * n22 * n33;
  }

  /** Row 4 of m times column 4 of the adjugate. */
  lemma CofactorRight44(
      n11: real, n21: real, n31: real, n41: real,
      n12: real, n22: real, n32: real, n42: real,
      n13: real, n23: real, n33: real, n43: real,
      n14: real, n24: real, n34: real, n44: real)
    returns (t14: real, t24: real, t34: real, t44: real, u11: real, u12: real, u13: real, u14: real)
    ensures t14 == n14 * n23 * n32 - n13 * n24 * n32 - n14 * n22 * n33 + n12 * n24 * n33 + n13 * n22 * n34 - n12 * n23 * n34
    ensures t24 == n13 * n24 * n31 - n14 * n23 * n31 + n14 * n21 * n33 - n11 * n24 * n33 - n13 * n21 * n34 + n11 * n23 * n34
    ensures t34 == n14 * n22 * n31 - n12 * n24 * n31 - n14 * n21 * n32 + n11 * n24 * n32 + n12 * n21 * n34 - n11 * n22 * n34
    ensures t44 == n12 * n23 * n31 - n13 * n22 * n31 + n13 * n21 * n32 - n11 * n23 * n32 - n12 * n21 * n33 + n11 * n22 * n33
    ensures u11 == n23 * n34 * n42 - n24 * n33 * n42 + n24 * n32 * n43 - n22 * n34 * n43 - n23 * n32 * n44 + n22 * n33 * n44
    ensures u12 == n14 * n33 * n42 - n13 * n34 * n42 - n14 * n32 * n43 + n12 * n34 * n43 + n13 * n32 * n44 - n12 * n33 * n44
    ensures u13 == n13 * n24 * n42 - n14 * n23 * n42 + n14 * n22 * n43 - n12 * n24 * n43 - n13 * n22 * n44 + n12 * n23 * n44
    ensures u14 == n14 * n23 * n32 - n13 * n24 * n32 - n14 * n22 * n33 + n12 * n24 * n33 + n13 * n22 * n34 - n12 * n23 * n34
    ensures n41 * t14 + n42 * t24 + n43 * t34 + n44 * t44 == n11 * u11 + n21 * u12 + n31 * u13 + n41 * u14
  {
    t14, t24, t34, t44, u11, u12, u13, u14 :=
      n14 * n23 * n32 - n13 * n24 * n32 - n14 * n22 * n33 + n12 * n24 * n33 + n13 * n22 * n34 - n12 * n23 * n34,
      n13 * n24 * n31 - n14 * n23 * n31 + n14 * n21 * n33 - n11 * n24 * n33 - n13 * n21 * n34 + n11 * n23 * n34,
      n14 * n22 * n31 - n12 * n24 * n31 - n14 * n21 * n32 + n11 * n24 * n32 + n12 * n21 * n34 - n11 * n22 * n34,
      n12 * n23 * n31 - n13 * n22 * n31 + n13 * n21 * n32 - n11 * n23 * n32 - n12 * n21 * n33 + n11 * n22 * n33,
      n23 * n34 * n42 - n24 * n33 * n42 + n24 * n32 * n43 - n22 * n34 * n43 - n23 * n32 * n44 + n22 * n33 * n44,
      n14 * n33 * n42 - n13 * n34 * n42 - n14 * n32 * n43 + n12 * n34 * n43 + n13 * n32 * n44 - n12 * n33 * n44,
      n13 * n24 * n42 - n14 * n23 * n42 + n14 * n22 * n43 - n12 * n24 * n43 - n13 * n22 * n44 + n12 * n23 * n44,
      n14 * n23 * n32 - n13 * n24 * n32 - n14 * n22 * n33 + n12 * n24 * n33 + n13 * n22 * n34 - n12 * n23 * n34;
  }

  /** Row 1 of Adjugate(m) × m: the determinant on the diagonal, 0 elsewhere. */
  lemma AdjugateLeft1(m: Mat4)
    ensures Dot(Adjugate(m), m, 0, 0) == Determinant(m)
    ensures Dot(Adjugate(m), m, 0, 1) == 0.0
    ensures Dot(Adjugate(m), m, 0, 2) == 0.0
    ensures Dot(Adjugate(m), m, 0, 3) == 0.0
  {
    var t11_0, t12_0, t13_0, t14_0 := CofactorLeft11(m[0], m[1], m[2], m[3], m[4], m[5], m[6], m[7], m[8], m[9], m[10], m[11], m[12], m[13], m[14], m[15]);
    var t11_1, t12_1, t13_1, t14_1 := CofactorLeft12(m[0], m[1], m[2], m[3], m[4], m[5], m[6], m[7], m[8], m[9], m[10], m[11], m[12], m[13], m[14], m[15]);
    var t11_2, t12_2, t13_2, t14_2 := CofactorLeft13(m[0], m[1], m[2], m[3], m[4], m[5], m[6], m[7], m[8], m[9], m[10], m[11], m[12], m[13], m[14], m[15]);
    var t11_3, t12_3, t13_3, t14_3 := CofactorLeft14(m[0], m[1], m[2], m[3], m[4], m[5], m[6], m[7], m[8], m[9], m[10], m[11], m[12], m[13], m[14], m[15]);
  }

  /** Row 2 of Adjugate(m) × m: the determinant on the diagonal, 0 elsewhere. */
  lemma AdjugateLeft2(m: Mat4)
    ensures Dot(Adjugate(m), m, 1, 0) == 0.0
    ensures Dot(Adjugate(m), m, 1, 1) == Determinant(m)
    ensures Dot(Adjugate(m), m, 1, 2) == 0.0
    ensures Dot(Adjugate(m), m, 1, 3) == 0.0
  {
    var t21_0, t22_0, t23_0, t24_0 := CofactorLeft21(m[0], m[1], m[2], m[3], m[4], m[5], m[6], m[7], m[8], m[9], m[10], m[11], m[12], m[13], m[14], m[15]);
    var t21_1, t22_1, t23_1, t24_1, u11_1, u12_1, u13_1, u14_1 := CofactorLeft22(m[0], m[1], m[2], m[3], m[4], m[5], m[6], m[7], m[8], m[9], m[10], m[11], m[12], m[13], m[14], m[15]);
    var t21_2, t22_2, t23_2, t24_2 := CofactorLeft23(m[0], m[1], m[2], m[3], m[4], m[5], m[6], m[7], m[8], m[9], m[10], m[11], m[12], m[13], m[14], m[15]);
    var t21_3, t22_3, t23_3, t24_3 := CofactorLeft24(m[0], m[1], m[2], m[3], m[4], m[5], m[6], m[7], m[8], m[9], m[10], m[11], m[12], m[13], m[14], m[15]);
  }

  /** Row 3 of Adjugate(m) × m: the determinant on the diagonal, 0 elsewhere. */
  lemma AdjugateLeft3(m: Mat4)
    ensures Dot(Adjugate(m), m, 2, 0) == 0.0
    ensures Dot(Adjugate(m), m, 2, 1) == 0.0
    ensures Dot(Adjugate(m), m, 2, 2) == Determinant(m)
    ensures Dot(Adjugate(m), m, 2, 3) == 0.0
  {
    var t31_0, t32_0, t33_0, t34_0 := CofactorLeft31(m[0], m[1], m[2], m[3], m[4], m[5], m[6], m[7], m[8], m[9], m[10], m[11], m[12], m[13], m[14], m[15]);
    var t31_1, t32_1, t33_1, t34_1 := CofactorLeft32(m[0], m[1], m[2], m[3], m[4], m[5], m[6], m[7], m[8], m[9], m[10], m[11], m[12], m[13], m[14], m[15]);
    var t31_2, t32_2, t33_2, t34_2, u11_2, u12_2, u13_2, u14_2 := CofactorLeft33(m[0], m[1], m[2], m[3], m[4], m[5], m[6], m[7], m[8], m[9], m[10], m[11], m[12], m[13], m[14], m[15]);
    var t31_3, t32_3, t33_3, t34_3 := CofactorLeft34(m[0], m[1], m[2], m[3], m[4], m[5], m[6], m[7], m[8], m[9], m[10], m[11], m[12], m[13], m[14], m[15]);
  }

  /** Row 4 of Adjugate(m) × m: the determinant on the diagonal, 0 elsewhere. */
  lemma AdjugateLeft4(m: Mat4)
    ensures Dot(Adjugate(m), m, 3, 0) == 0.0
    ensures Dot(Adjugate(m), m, 3, 1) == 0.0
    ensures Dot(Adjugate(m), m, 3, 2) == 0.0
    ensures Dot(Adjugate(m), m, 3, 3) == Determinant(m)
  {
    var t41_0, t42_0, t43_0, t44_0 := CofactorLeft41(m[0], m[1], m[2], m[3], m[4], m[5], m[6], m[7], m[8], m[9], m[10], m[11], m[12], m[13], m[14], m[15]);
    var t41_1, t42_1, t43_1, t44_1 := CofactorLeft42(m[0], m[1], m[2], m[3], m[4], m[5], m[6], m[7], m[8], m[9], m[10], m[11], m[12], m[13], m[14], m[15]);
    var t41_2, t42_2, t43_2, t44_2 := CofactorLeft43(m[0], m[1], m[2], m[3], m[4], m[5], m[6], m[7], m[8], m[9], m[10], m[11], m[12], m[13], m[14], m[15]);
    var t41_3, t42_3, t43_3, t44_3, u11_3, u12_3, u13_3, u14_3 := CofactorLeft44(m[0], m[1], m[2], m[3], m[4], m[5], m[6], m[7], m[8], m[9], m[10], m[11], m[12], m[13], m[14], m[15]);
  }

  /** Column 1 of m × Adjugate(m): the determinant on the diagonal, 0 elsewhere. */
  lemma AdjugateRight1(m: Mat4)
    ensures Dot(m, Adjugate(m), 0, 0) == Determinant(m)
    ensures Dot(m, Adjugate(m), 1, 0) == 0.0
    ensures Dot(m, Adjugate(m), 2, 0) == 0.0
    ensures Dot(m, Adjugate(m), 3, 0) == 0.0
  {
    var t11_0, t21_0, t31_0, t41_0, u11_0, u12_0, u13_0, u14_0 := CofactorRight11(m[0], m[1], m[2], m[3], m[4], m[5], m[6], m[7], m[8], m[9], m[10], m[11], m[12], m[13], m[14], m[15]);
    var t11_1, t21_1, t31_1, t41_1 := CofactorRight21(m[0], m[1], m[2], m[3], m[4], m[5], m[6], m[7], m[8], m[9], m[10], m[11], m[12], m[13], m[14], m[15]);
    var t11_2, t21_2, t31_2, t41_2 := CofactorRight31(m[0], m[1], m[2], m[3], m[4], m[5], m[6], m[7], m[8], m[9], m[10], m[11], m[12], m[13], m[14], m[15]);
    var t11_3, t21_3, t31_3, t41_3 := CofactorRight41(m[0], m[1], m[2], m[3], m[4], m[5], m[6], m[7], m[8], m[9], m[10], m[11], m[12], m[13], m[14], m[15]);
  }

  /** Column 2 of m × Adjugate(m): the determinant on the diagonal, 0 elsewhere. */
  lemma AdjugateRight2(m: Mat4)
    ensures Dot(m, Adjugate(m), 0, 1) == 0.0
    ensures Dot(m, Adjugate(m), 1, 1) == Determinant(m)
    ensures Dot(m, Adjugate(m), 2, 1) == 0.0
    ensures Dot(m, Adjugate(m), 3, 1) == 0.0
  {
    var t12_0, t22_0, t32_0, t42_0 := CofactorRight12(m[0], m[1], m[2], m[3], m[4], m[5], m[6], m[7], m[8], m[9], m[10], m[11], m[12], m[13], m[14], m[15]);
    var t12_1, t22_1, t32_1, t42_1, u11_1, u12_1, u13_1, u14_1 := CofactorRight22(m[0], m[1], m[2], m[3], m[4], m[5], m[6], m[7], m[8], m[9], m[10], m[11], m[12], m[13], m[14], m[15]);
    var t12_2, t22_2, t32_2, t42_2 := CofactorRight32(m[0], m[1], m[2], m[3], m[4], m[5], m[6], m[7], m[8], m[9], m[10], m[11], m[12], m[13], m[14], m[15]);
    var t12_3, t22_3, t32_3, t42_3 := CofactorRight42(m[0], m[1], m[2], m[3], m[4], m[5], m[6], m[7], m[8], m[9], m[10], m[11], m[12], m[13], m[14], m[15]);
  }

  /** Column 3 of m × Adjugate(m): the determinant on the diagonal, 0 elsewhere. */
  lemma AdjugateRight3(m: Mat4)
    ensures Dot(m, Adjugate(m), 0, 2) == 0.0
    ensures Dot(m, Adjugate(m), 1, 2) == 0.0
    ensures Dot(m, Adjugate(m), 2, 2) == Determinant(m)
    ensures Dot(m, Adjugate(m), 3, 2) == 0.0
  {
    var t13_0, t23_0, t33_0, t43_0 := CofactorRight13(m[0], m[1], m[2], m[3], m[4], m[5], m[6], m[7], m[8], m[9], m[10], m[11], m[12], m[13], m[14], m[15]);
    var t13_1, t23_1, t33_1, t43_1 := CofactorRight23(m[0], m[1], m[2], m[3], m[4], m[5], m[6], m[7], m[8], m[9], m[10], m[11], m[12], m[13], m[14], m[15]);
    var t13_2, t23_2, t33_2, t43_2, u11_2, u12_2, u13_2, u14_2 := CofactorRight33(m[0], m[1], m[2], m[3], m[4], m[5], m[6], m[7], m[8], m[9], m[10], m[11], m[12], m[13], m[14], m[15]);
    var t13_3, t23_3, t33_3, t43_3 := CofactorRight43(m[0], m[1], m[2], m[3], m[4], m[5], m[6], m[7], m[8], m[9], m[10], m[11], m[12], m[13], m[14], m[15]);
  }

  /** Column 4 of m × Adjugate(m): the determinant on the diagonal, 0 elsewhere. */
  lemma AdjugateRight4(m: Mat4)
    ensures Dot(m, Adjugate(m), 0, 3) == 0.0
    ensures Dot(m, Adjugate(m), 1, 3) == 0.0
    ensures Dot(m, Adjugate(m), 2, 3) == 0.0
    ensures Dot(m, Adjugate(m), 3, 3) == Determinant(m)
  {
    var t14_0, t24_0, t34_0, t44_0 := CofactorRight14(m[0], m[1], m[2], m[3], m[4], m[5], m[6], m[7], m[8], m[9], m[10], m[11], m[12], m[13], m[14], m[15]);
    var t14_1, t24_1, t34_1, t44_1 := CofactorRight24(m[0], m[1], m[2], m[3], m[4], m[5], m[6], m[7], m[8], m[9], m[10], m[11], m[12], m[13], m[14], m[15]);
    var t14_2, t24_2, t34_2, t44_2 := CofactorRight34(m[0], m[1], m[2], m[3], m[4], m[5], m[6], m[7], m[8], m[9], m[10], m[11], m[12], m[13], m[14], m[15]);
    var t14_3, t24_3, t34_3, t44_3, u11_3, u12_3, u13_3, u14_3 := CofactorRight44(m[0], m[1], m[2], m[3], m[4], m[5], m[6], m[7], m[8], m[9], m[10], m[11], m[12], m[13], m[14], m[15]);
  }

  /** The adjugate times m, on either side, is the determinant times the identity. */
  lemma AdjugateProducts(m: Mat4)
    ensures forall r, c :: 0 <= r < 4 && 0 <= c < 4 ==>
      Dot(Adjugate(m), m, r, c) == (if r == c then Determinant(m) else 0.0)
    ensures forall r, c :: 0 <= r < 4 && 0 <= c < 4 ==>
      Dot(m, Adjugate(m), r, c) == (if r == c then Determinant(m) else 0.0)
  {
    AdjugateLeft1(m); AdjugateLeft2(m); AdjugateLeft3(m); AdjugateLeft4(m);
    AdjugateRight1(m); AdjugateRight2(m); AdjugateRight3(m); AdjugateRight4(m);
  }

  /** A common factor `s` of the left operands of a four-term dot product `d` comes out. */
  lemma DistributeLeft(s: real, x0: real, x1: real, x2: real, x3: real, p0: real, p1: real, p2: real, p3: real,
                       y0: real, y1: real, y2: real, y3: real, d: real)
    requires p0 == x0 * s && p1 == x1 * s && p2 == x2 * s && p3 == x3 * s
    requires d == x0 * y0 + x1 * y1 + x2 * y2 + x3 * y3
    ensures p0 * y0 + p1 * y1 + p2 * y2 + p3 * y3 == d * s
  {
  }

  /** A common factor `s` of the right operands of a four-term dot product `d` comes out. */
  lemma DistributeRight(s: real, x0: real, x1: real, x2: real, x3: real, y0: real, y1: real, y2: real, y3: real,
                        p0: real, p1: real, p2: real, p3: real, d: real)
    requires p0 == y0 * s && p1 == y1 * s && p2 == y2 * s && p3 == y3 * s
    requires d == x0 * y0 + x1 * y1 + x2 * y2 + x3 * y3
    ensures x0 * p0 + x1 * p1 + x2 * p2 + x3 * p3 == d * s
  {
  }

  /** Each entry of the inverse is the adjugate's entry divided by the determinant. */
  lemma InverseScalesAdjugate(m: Mat4)
    requires Determinant(m) != 0.0
    ensures Scales(Inverse(m), Adjugate(m), 1.0 / Determinant(m))
  {
  }

  /** Every entry of `v` is the matching entry of `a` times `s`. */
  predicate Scales(v: Mat4, a: Mat4, s: real)
  {
    v[0] == a[0] * s && v[1] == a[1] * s && v[2] == a[2] * s && v[3] == a[3] * s && v[4] == a[4] * s && v[5] == a[5] * s && v[6] == a[6] * s && v[7] == a[7] * s && v[8] == a[8] * s && v[9] == a[9] * s && v[10] == a[10] * s && v[11] == a[11] * s && v[12] == a[12] * s && v[13] == a[13] * s && v[14] == a[14] * s && v[15] == a[15] * s
  }

  /** Scaling every entry of the left factor by `s` scales the product by `s`. */
  lemma ScaleLeft(a: Mat4, v: Mat4, b: Mat4, s: real)
    requires Scales(v, a, s)
    ensures forall r, c :: 0 <= r < 4 && 0 <= c < 4 ==> Dot(v, b, r, c) == Dot(a, b, r, c) * s
  {
    forall r, c | 0 <= r < 4 && 0 <= c < 4
      ensures Dot(v, b, r, c) == Dot(a, b, r, c) * s
    {
      DistributeLeft(s, a[r], a[4 + r], a[8 + r], a[12 + r], v[r], v[4 + r], v[8 + r], v[12 + r],
                     b[4 * c], b[4 * c + 1], b[4 * c + 2], b[4 * c + 3], Dot(a, b, r, c));
    }
  }

  /** Scaling every entry of the right factor by `s` scales the product by `s`. */
  lemma ScaleRight(a: Mat4, b: Mat4, v: Mat4, s: real)
    requires Scales(v, b, s)
    ensures forall r, c :: 0 <= r < 4 && 0 <= c < 4 ==> Dot(a, v, r, c) == Dot(a, b, r, c) * s
  {
    forall r, c | 0 <= r < 4 && 0 <= c < 4
      ensures Dot(a, v, r, c) == Dot(a, b, r, c) * s
    {
      DistributeRight(s, a[r], a[4 + r], a[8 + r], a[12 + r], b[4 * c], b[4 * c + 1], b[4 * c + 2], b[4 * c + 3],
                      v[4 * c], v[4 * c + 1], v[4 * c + 2], v[4 * c + 3], Dot(a, b, r, c));
    }
  }

  /** If `a` times `m` is `d` times the identity on both sides and `d * s == 1`,
      then `a` scaled by `s` is a two-sided inverse of `m`. */
  lemma ScaledAdjugateInverts(a: Mat4, v: Mat4, m: Mat4, d: real, s: real)
    requires forall r, c :: 0 <= r < 4 && 0 <= c < 4 ==> Dot(a, m, r, c) == (if r == c then d else 0.0)
    requires forall r, c :: 0 <= r < 4 && 0 <= c < 4 ==> Dot(m, a, r, c) == (if r == c then d else 0.0)
    requires Scales(v, a, s) && d * s == 1.0
    ensures Mul(v, m) == IdentityMatrix && Mul(m, v) == IdentityMatrix
  {
    ScaleLeft(a, v, m, s);
    ScaleRight(m, a, v, s);
    forall r, c | 0 <= r < 4 && 0 <= c < 4
      ensures Dot(v, m, r, c) == (if r == c then 1.0 else 0.0)
      ensures Dot(m, v, r, c) == (if r == c then 1.0 else 0.0)
    {
      if r != c {
        assert Dot(a, m, r, c) * s == 0.0 * s;
        assert Dot(m, a, r, c) * s == 0.0 * s;
      }
    }
  }

  /** A nonzero real times its reciprocal is 1. */
  lemma Reciprocal(x: real)
    requires x != 0.0
    ensures x * (1.0 / x) == 1.0
  {
  }

  /** When the determinant is not 0, `invert` computes the two-sided inverse:
      Inverse(m) × m and m × Inverse(m) are both the identity. */
  lemma InverseIsInverse(m: Mat4)
    requires Determinant(m) != 0.0
    ensures Mul(Inverse(m), m) == IdentityMatrix && Mul(m, Inverse(m)) == IdentityMatrix
  {
    AdjugateProducts(m);
    InverseScalesAdjugate(m);
    Reciprocal(Determinant(m));
    ScaledAdjugateInverts(Adjugate(m), Inverse(m), m, Determinant(m), 1.0 / Determinant(m));
  }



  /** A Matrix4: a fixed array of 16 slots overwritten in place. */
  class Matrix4 {
    const e: array<real>

    ghost predicate Valid() {
      e.Length == 16
    }

    /** The current entries. */
    function Value(): Mat4
      reads e
      requires Valid()
    {
      [e[0], e[1], e[2], e[3], e[4], e[5], e[6], e[7],
       e[8], e[9], e[10], e[11], e[12], e[13], e[14], e[15]]
    }

    /** `new Matrix4()`: 16 fresh slots set to the identity. */
    constructor ()
      ensures Valid() && fresh(e) && Value() == IdentityMatrix
    {
      e := new real[16];
      new;
      Identity();
    }

    /** `copyFrom(s)`: the first 16 numbers of `s`. */
    method CopyFrom(s: seq<real>)
      requires Valid() && |s| >= 16
      modifies e
      ensures Value() == s[..16]
    {
      e[0] := s[0]; e[4] := s[4]; e[8] := s[8]; e[12] := s[12];
      e[1] := s[1]; e[5] := s[5]; e[9] := s[9]; e[13] := s[13];
      e[2] := s[2]; e[6] := s[6]; e[10] := s[10]; e[14] := s[14];
      e[3] := s[3]; e[7] := s[7]; e[11] := s[11]; e[15] := s[15];
    }

    /** `set(n11, …, n44)` takes its arguments row by row, so it stores the
        transpose of the argument list read as column-major. */
    method Set(n11: real, n12: real, n13: real, n14: real,
               n21: real, n22: real, n23: real, n24: real,
               n31: real, n32: real, n33: real, n34: real,
               n41: real, n42: real, n43: real, n44: real)
      requires Valid()
      modifies e
      ensures Value() == Transposed([n11, n12, n13, n14, n21, n22, n23, n24, n31, n32, n33, n34, n41, n42, n43, n44])
    {
      e[0] := n11; e[4] := n12; e[8] := n13; e[12] := n14;
      e[1] := n21; e[5] := n22; e[9] := n23; e[13] := n24;
      e[2] := n31; e[6] := n32; e[10] := n33; e[14] := n34;
      e[3] := n41; e[7] := n42; e[11] := n43; e[15] := n44;
    }

    /** `identity()`. */
    method Identity()
      requires Valid()
      modifies e
      ensures Value() == IdentityMatrix
    {
      Set(1.0, 0.0, 0.0, 0.0,
          0.0, 1.0, 0.0, 0.0,
          0.0, 0.0, 1.0, 0.0,
          0.0, 0.0, 0.0, 1.0);
    }

    /** `translate(x, y, z)` overwrites the translation column (indices 12,
        13, 14) and nothing else. */
    method Translate(x: real, y: real, z: real)
      requires Valid()
      modifies e
      ensures Value() == old(Value())[12 := x][13 := y][14 := z]
    {
      e[12] := x;
      e[13] := y;
      e[14] := z;
    }

    /** `transpose()`, by six swaps in place. */
    method Transpose()
      requires Valid()
      modifies e
      ensures Value() == Transposed(old(Value()))
    {
      var tmp: real;
      tmp := e[1]; e[1] := e[4]; e[4] := tmp;
      tmp := e[2]; e[2] := e[8]; e[8] := tmp;
      tmp := e[6]; e[6] := e[9]; e[9] := tmp;

      tmp := e[3]; e[3] := e[12]; e[12] := tmp;
      tmp := e[7]; e[7] := e[13]; e[13] := tmp;
      tmp := e[11]; e[11] := e[14]; e[14] := tmp;
    }

    /** `compose(position, quaternion, scale)` writes all 16 slots. */
    method Compose(position: seq<real>, quaternion: seq<real>, scale: seq<real>)
      requires Valid() && |position| >= 3 && |quaternion| >= 4 && |scale| >= 3
      modifies e
      ensures Value() == Composed(position, quaternion, scale)
    {
      var t := Composed(position, quaternion, scale);
      e[0] := t[0]; e[1] := t[1]; e[2] := t[2]; e[3] := t[3];
      e[4] := t[4]; e[5] := t[5]; e[6] := t[6]; e[7] := t[7];
      e[8] := t[8]; e[9] := t[9]; e[10] := t[10]; e[11] := t[11];
      e[12] := t[12]; e[13] := t[13]; e[14] := t[14]; e[15] := t[15];
    }

    /** `invert()`: all 16 entries are read before any is written; a
        determinant of exactly 0 fills the matrix with zeros. */
    method Invert()
      requires Valid()
      modifies e
      ensures Value() == Inverse(old(Value()))
      ensures Determinant(old(Value())) != 0.0 ==>
        Mul(Value(), old(Value())) == IdentityMatrix && Mul(old(Value()), Value()) == IdentityMatrix
      ensures Determinant(old(Value())) == 0.0 ==> Value() == Zero
    {
      var n := Value();
      var det := Determinant(n);
      if det == 0.0 {
        forall i | 0 <= i < 16 {
          e[i] := 0.0;
        }
        return;
      }
      var r := Inverse(n);
      forall i | 0 <= i < 16 {
        e[i] := r[i];
      }
      InverseIsInverse(n);
    }

    /** `multiply(m)`: this := this × m, correct although `this` is both the
        target and the left operand. */
    method Multiply(m: Matrix4)
      requires Valid() && m.Valid()
      modifies e
      ensures Value() == Mul(old(Value()), old(m.Value()))
    {
      MultiplyMatrices(this, m);
    }

    /** `multiplyMatrices(a, b)`: this := a × b. All 32 operands are read
        before the first write, so `a` or `b` may be this matrix. */
    method MultiplyMatrices(a: Matrix4, b: Matrix4)
      requires Valid() && a.Valid() && b.Valid()
      modifies e
      ensures Value() == Mul(old(a.Value()), old(b.Value()))
    {
      var av, bv := a.Value(), b.Value();
      var p := Mul(av, bv);
      forall i | 0 <= i < 16 {
        e[i] := p[i];
      }
    }
  }

  /** `new Matrix4().copyFrom(m).invert()`, as both renderers' `setCameraMatrix`
      write it: the inverse of `m` in a new matrix, leaving `m` as it is. */
  method NewInverse(m: Matrix4) returns (r: Matrix4)
    requires m.Valid()
    ensures fresh(r) && fresh(r.e) && r.Valid() && r.Value() == Inverse(m.Value())
    ensures Determinant(m.Value()) != 0.0 ==>
      Mul(r.Value(), m.Value()) == IdentityMatrix && Mul(m.Value(), r.Value()) == IdentityMatrix
  {
    r := new Matrix4();
    r.CopyFrom(m.Value());
    r.Invert();
  }

  /** A Quaternion: four slots (x, y, z, w). */
  class Quaternion {
    const q: array<real>

    /** `new Quaternion()` is the identity rotation (0, 0, 0, 1). */
    constructor ()
      ensures fresh(q) && q[..] == [0.0, 0.0, 0.0, 1.0]
    {
      q := new real[4];
      new;
      q[0] := 0.0;
      q[1] := 0.0;
      q[2] := 0.0;
      q[3] := 1.0;
    }
  }

  // ---- isPowerOfTwo ----

  const TWO32: int := 0x1_0000_0000

  function Pow2(k: nat): (p: nat)
    ensures p >= 1
  {
    if k == 0 then 1 else 2 * Pow2(k - 1)
  }

  lemma {:induction false} Pow2Add(a: nat, b: nat)
    ensures Pow2(a + b) == Pow2(a) * Pow2(b)
    decreases a
  {
    if a > 0 {
      Pow2Add(a - 1, b);
    }
  }

  lemma Pow2Is32()
    ensures Pow2(32) == TWO32
  {
    assert Pow2(2) == 4;
    Pow2Add(2, 2);
    Pow2Add(4, 4);
    Pow2Add(8, 8);
    Pow2Add(16, 16);
  }

  /** The 32-bit pattern JavaScript's bitwise operators see for the integer
      `n` (ToInt32, read as unsigned). */
  function Bits32(n: int): (b: nat)
    ensures b < TWO32
    ensures 0 <= n < TWO32 ==> b == n
  {
    n % TWO32
  }

  /** The low `width` bits of the bitwise and of `a` and `b`. */
  function BitAnd(a: nat, b: nat, width: nat): nat
  {
    if width == 0 then 0
    else (if a % 2 == 1 && b % 2 == 1 then 1 else 0) + 2 * BitAnd(a / 2, b / 2, width - 1)
  }

  /** `isPowerOfTwo(n)`: `(n & (n - 1)) === 0 && n !== 0` for an integer `n`. */
  function IsPowerOfTwo(n: int): bool
  {
    BitAnd(Bits32(n), Bits32(n - 1), 32) == 0 && n != 0
  }

  /** `n` is 2 to some power. */
  predicate IsPow2(n: nat)
  {
    n == 1 || (n > 1 && n % 2 == 0 && IsPow2(n / 2))
  }

  lemma {:induction false} BitAndSelf(x: nat, width: nat)
    requires x < Pow2(width)
    ensures BitAnd(x, x, width) == x
    decreases width
  {
    if width > 0 {
      BitAndSelf(x / 2, width - 1);
    }
  }

  /** For 0 < n < 2^width, n and n - 1 share no bit exactly when n is a power of two. */
  lemma {:induction false} BitAndPredecessor(n: nat, width: nat)
    requires 0 < n < Pow2(width)
    ensures BitAnd(n, n - 1, width) == 0 <==> IsPow2(n)
    decreases width
  {
    if n == 1 {
      BitAndSelf(0, width - 1);
    } else if n % 2 == 1 {
      assert (n - 1) / 2 == n / 2;
      BitAndSelf(n / 2, width - 1);
    } else {
      assert (n - 1) / 2 == n / 2 - 1;
      BitAndPredecessor(n / 2, width - 1);
    }
  }

  /** `isPowerOfTwo(0)` is false, and for 0 < n < 2^32 `isPowerOfTwo(n)` holds
      exactly when n is a power of two. */
  lemma IsPowerOfTwoCorrect(n: int)
    requires 0 <= n < TWO32
    ensures IsPowerOfTwo(n) <==> n > 0 && IsPow2(n)
  {
    if n > 0 {
      Pow2Is32();
      BitAndPredecessor(n, 32);
    }
  }

  /** Below zero, ToInt32 makes `isPowerOfTwo(-2147483648)` true. */
  lemma IsPowerOfTwoOfMinInt32()
    ensures IsPowerOfTwo(-0x8000_0000)
  {
    assert Bits32(-0x8000_0000) == 0x8000_0000;
    assert Bits32(-0x8000_0001) == 0x7FFF_FFFF;
    assert BitAnd(0x8000_0000, 0x7FFF_FFFF, 32) == 0 by {
      Pow2Is32();
      BitAndHighBit(31);
    }
  }

  /** 2^k and 2^k - 1 share no bit within k + 1 bits. */
  lemma {:induction false} BitAndHighBit(k: nat)
    ensures BitAnd(Pow2(k), Pow2(k) - 1, k + 1) == 0
  {
    if k > 0 {
      assert Pow2(k) / 2 == Pow2(k - 1);
      assert (Pow2(k) - 1) / 2 == Pow2(k - 1) - 1;
      BitAndHighBit(k - 1);
    }
  }
}
