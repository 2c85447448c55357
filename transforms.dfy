/**
 * The 4x4 homogeneous transform builders of render.py and the little matrix
 * algebra the rest of the model needs. Arithmetic is over `real`, so float
 * rounding is not modelled, and the trigonometry of the Z rotation is left
 * uninterpreted: the caller passes in the cosine `c` and the sine `s`.
 */
module Transforms {

  /** A 4x4 matrix as a sequence of four rows of four entries. */
  type Mat4 = m: seq<seq<real>> | |m| == 4 && forall i :: 0 <= i < 4 ==> |m[i]| == 4
    witness [[0.0, 0.0, 0.0, 0.0], [0.0, 0.0, 0.0, 0.0], [0.0, 0.0, 0.0, 0.0], [0.0, 0.0, 0.0, 0.0]]

  /** A homogeneous 4-vector (x, y, z, w). */
  type Vec4 = v: seq<real> | |v| == 4 witness [0.0, 0.0, 0.0, 0.0]

  /** The entry `(i, j)` of the 4x4 identity, what `np.eye(4)` holds. */
  function Eye(i: int, j: int): real {
    if i == j then 1.0 else 0.0
  }

  function Identity(): (m: Mat4)
    ensures forall i, j :: 0 <= i < 4 && 0 <= j < 4 ==> m[i][j] == Eye(i, j)
  {
    [[1.0, 0.0, 0.0, 0.0],
     [0.0, 1.0, 0.0, 0.0],
     [0.0, 0.0, 1.0, 0.0],
     [0.0, 0.0, 0.0, 1.0]]
  }

  /** Row `i` of `a` times column `j` of `b`. */
  function Dot(a: Mat4, b: Mat4, i: nat, j: nat): real
    requires i < 4 && j < 4
  {
    a[i][0] * b[0][j] + a[i][1] * b[1][j] + a[i][2] * b[2][j] + a[i][3] * b[3][j]
  }

  /** The bottom row is (0, 0, 0, 1): the matrix is an affine transform of homogeneous points. */
  predicate Affine(m: Mat4) {
    m[3][0] == 0.0 && m[3][1] == 0.0 && m[3][2] == 0.0 && m[3][3] == 1.0
  }

  /**
   * The matrix product `a @ b`: entry (i, j) is row i of `a` times column
   * j of `b`; the product of two affine transforms is affine.
   */
  function MatMul(a: Mat4, b: Mat4): (m: Mat4)
    ensures Affine(a) && Affine(b) ==> Affine(m)
  {
    [[Dot(a, b, 0, 0), Dot(a, b, 0, 1), Dot(a, b, 0, 2), Dot(a, b, 0, 3)],
     [Dot(a, b, 1, 0), Dot(a, b, 1, 1), Dot(a, b, 1, 2), Dot(a, b, 1, 3)],
     [Dot(a, b, 2, 0), Dot(a, b, 2, 1), Dot(a, b, 2, 2), Dot(a, b, 2, 3)],
     [Dot(a, b, 3, 0), Dot(a, b, 3, 1), Dot(a, b, 3, 2), Dot(a, b, 3, 3)]]
  }

  /** Row `i` of `m` times the column vector `v`. */
  function RowTimes(m: Mat4, v: Vec4, i: nat): real
    requires i < 4
  {
    m[i][0] * v[0] + m[i][1] * v[1] + m[i][2] * v[2] + m[i][3] * v[3]
  }

  /**
   * The matrix-vector product `m @ v`: `m` applied to a homogeneous point.
   * An affine transform keeps the homogeneous coordinate, so a point with
   * w = 1 stays one.
   */
  function Apply(m: Mat4, v: Vec4): (r: Vec4)
    ensures Affine(m) ==> r[3] == v[3]
  {
    [RowTimes(m, v, 0), RowTimes(m, v, 1), RowTimes(m, v, 2), RowTimes(m, v, 3)]
  }

  /** `translation_matrix(tx, ty, tz)`: the identity with the translation column set. */
  function Translation(tx: real, ty: real, tz: real): (t: Mat4)
    ensures forall i, j :: 0 <= i < 4 && 0 <= j < 4 && !(j == 3 && i < 3) ==> t[i][j] == Eye(i, j)
    ensures t[0][3] == tx && t[1][3] == ty && t[2][3] == tz
  {
    [[1.0, 0.0, 0.0, tx],
     [0.0, 1.0, 0.0, ty],
     [0.0, 0.0, 1.0, tz],
     [0.0, 0.0, 0.0, 1.0]]
  }

  /**
   * `rotation_z_matrix(deg)` with `c = cos(radians(deg))` and
   * `s = sin(radians(deg))` given: the identity with the upper-left 2x2
   * block replaced by [[c, -s], [s, c]].
   */
  function RotationZ(c: real, s: real): (r: Mat4)
    ensures forall i, j :: 0 <= i < 4 && 0 <= j < 4 && !(i < 2 && j < 2) ==> r[i][j] == Eye(i, j)
    ensures r[0][0] == c && r[0][1] == -s && r[1][0] == s && r[1][1] == c
  {
    [[c, -s, 0.0, 0.0],
     [s, c, 0.0, 0.0],
     [0.0, 0.0, 1.0, 0.0],
     [0.0, 0.0, 0.0, 1.0]]
  }

  /** A homogeneous point (x, y, z, 1). */
  function Point4(x: real, y: real, z: real): Vec4 {
    [x, y, z, 1.0]
  }

  /** Two matrices with the same entries are equal. */
  lemma MatExt(a: Mat4, b: Mat4)
    requires forall i, j :: 0 <= i < 4 && 0 <= j < 4 ==> a[i][j] == b[i][j]
    ensures a == b
  {
    forall i | 0 <= i < 4
      ensures a[i] == b[i]
    {
      assert forall j :: 0 <= j < 4 ==> a[i][j] == b[i][j];
    }
  }

  lemma TranslationMovesPoint(tx: real, ty: real, tz: real, x: real, y: real, z: real)
    ensures Apply(Translation(tx, ty, tz), Point4(x, y, z)) == Point4(x + tx, y + ty, z + tz)
  {
    var t, p := Translation(tx, ty, tz), Point4(x, y, z);
    assert RowTimes(t, p, 0) == x + tx;
    assert RowTimes(t, p, 1) == y + ty;
    assert RowTimes(t, p, 2) == z + tz;
    assert RowTimes(t, p, 3) == 1.0;
  }

  /** Translating back by the negated offsets undoes a translation. */
  lemma TranslationInverse(tx: real, ty: real, tz: real)
    ensures MatMul(Translation(-tx, -ty, -tz), Translation(tx, ty, tz)) == Identity()
  {
    MatExt(MatMul(Translation(-tx, -ty, -tz), Translation(tx, ty, tz)), Identity());
  }

  /** A Z rotation leaves the z and w components of every vector alone. */
  lemma RotationZKeepsZW(c: real, s: real, v: Vec4)
    ensures Apply(RotationZ(c, s), v)[2] == v[2]
    ensures Apply(RotationZ(c, s), v)[3] == v[3]
    ensures Apply(RotationZ(c, s), v)[0] == c * v[0] - s * v[1]
    ensures Apply(RotationZ(c, s), v)[1] == s * v[0] + c * v[1]
  {
  }

  /** With c*c + s*s == 1 the rotation by -angle (cosine c, sine -s) undoes the rotation. */
  lemma RotationZInverse(c: real, s: real)
    requires c * c + s * s == 1.0
    ensures MatMul(RotationZ(c, -s), RotationZ(c, s)) == Identity()
  {
    var p, r, q := MatMul(RotationZ(c, -s), RotationZ(c, s)), RotationZ(c, -s), RotationZ(c, s);
    assert p[0][0] == Dot(r, q, 0, 0) == c * c + s * s;
    assert p[0][1] == Dot(r, q, 0, 1) == 0.0;
    assert p[1][0] == Dot(r, q, 1, 0) == 0.0;
    assert p[1][1] == Dot(r, q, 1, 1) == s * s + c * c;
    MatExt(p, Identity());
  }

  /** With c*c + s*s == 1 the rotation keeps the distance of a point from the Z axis. */
  lemma RotationZKeepsRadius(c: real, s: real, v: Vec4)
    requires c * c + s * s == 1.0
    ensures var u := Apply(RotationZ(c, s), v); u[0] * u[0] + u[1] * u[1] == v[0] * v[0] + v[1] * v[1]
  {
    var u := Apply(RotationZ(c, s), v);
    calc {
      u[0] * u[0] + u[1] * u[1];
      (c * v[0] - s * v[1]) * (c * v[0] - s * v[1]) + (s * v[0] + c * v[1]) * (s * v[0] + c * v[1]);
      (c * c + s * s) * (v[0] * v[0] + v[1] * v[1]);
    }
  }

  /** A quarter turn (cos 90 = 0, sin 90 = 1) takes (1, 0, 0, 1) to (0, 1, 0, 1). */
  lemma RotationZQuarterTurn()
    ensures Apply(RotationZ(0.0, 1.0), Point4(1.0, 0.0, 0.0)) == Point4(0.0, 1.0, 0.0)
  {
  }

  lemma IdentityLeft(m: Mat4)
    ensures MatMul(Identity(), m) == m
  {
    MatExt(MatMul(Identity(), m), m);
  }

  lemma IdentityRight(m: Mat4)
    ensures MatMul(m, Identity()) == m
  {
    MatExt(MatMul(m, Identity()), m);
  }

  lemma ApplyIdentity(v: Vec4)
    ensures Apply(Identity(), v) == v
  {
    var i := Identity();
    assert RowTimes(i, v, 0) == v[0] && RowTimes(i, v, 1) == v[1];
    assert RowTimes(i, v, 2) == v[2] && RowTimes(i, v, 3) == v[3];
  }

  /** Applying a product applies its right factor first: `(a @ b) @ v == a @ (b @ v)`. */
  lemma ApplyMatMul(a: Mat4, b: Mat4, v: Vec4)
    ensures Apply(MatMul(a, b), v) == Apply(a, Apply(b, v))
  {
    var ab, bv := MatMul(a, b), Apply(b, v);
    RowRegroupAt(a, b, v, ab, bv, 0);
    RowRegroupAt(a, b, v, ab, bv, 1);
    RowRegroupAt(a, b, v, ab, bv, 2);
    RowRegroupAt(a, b, v, ab, bv, 3);
  }

  /** Row `i` of `(a @ b) @ v` equals row `i` of `a @ (b @ v)`, for any `ab` and `bv` holding those products' entries. */
  lemma RowRegroupAt(a: Mat4, b: Mat4, v: Vec4, ab: Mat4, bv: Vec4, i: nat)
    requires i < 4
    requires ab[i][0] == Dot(a, b, i, 0) && ab[i][1] == Dot(a, b, i, 1)
    requires ab[i][2] == Dot(a, b, i, 2) && ab[i][3] == Dot(a, b, i, 3)
    requires bv[0] == RowTimes(b, v, 0) && bv[1] == RowTimes(b, v, 1)
    requires bv[2] == RowTimes(b, v, 2) && bv[3] == RowTimes(b, v, 3)
    ensures RowTimes(ab, v, i) == RowTimes(a, bv, i)
  {
    ProductRow(a, b, v, ab, i);
    AppliedRow(a, b, v, bv, i);
    Regroup(a[i][0], a[i][1], a[i][2], a[i][3],
            b[0][0], b[0][1], b[0][2], b[0][3], b[1][0], b[1][1], b[1][2], b[1][3],
            b[2][0], b[2][1], b[2][2], b[2][3], b[3][0], b[3][1], b[3][2], b[3][3],
            v[0], v[1], v[2], v[3]);
  }

  /** Row `i` of `(a @ b) @ v`, written out entry by entry. */
  lemma ProductRow(a: Mat4, b: Mat4, v: Vec4, ab: Mat4, i: nat)
    requires i < 4
    requires ab[i][0] == Dot(a, b, i, 0) && ab[i][1] == Dot(a, b, i, 1)
    requires ab[i][2] == Dot(a, b, i, 2) && ab[i][3] == Dot(a, b, i, 3)
    ensures RowTimes(ab, v, i)
         == Combine(a[i][0] * b[0][0] + a[i][1] * b[1][0] + a[i][2] * b[2][0] + a[i][3] * b[3][0],
               a[i][0] * b[0][1] + a[i][1] * b[1][1] + a[i][2] * b[2][1] + a[i][3] * b[3][1],
               a[i][0] * b[0][2] + a[i][1] * b[1][2] + a[i][2] * b[2][2] + a[i][3] * b[3][2],
               a[i][0] * b[0][3] + a[i][1] * b[1][3] + a[i][2] * b[2][3] + a[i][3] * b[3][3],
               v[0], v[1], v[2], v[3])
  {
    assert RowTimes(ab, v, i) == Combine(ab[i][0], ab[i][1], ab[i][2], ab[i][3], v[0], v[1], v[2], v[3]);
  }

  /** Row `i` of `a @ (b @ v)`, written out entry by entry. */
  lemma AppliedRow(a: Mat4, b: Mat4, v: Vec4, bv: Vec4, i: nat)
    requires i < 4
    requires bv[0] == RowTimes(b, v, 0) && bv[1] == RowTimes(b, v, 1)
    requires bv[2] == RowTimes(b, v, 2) && bv[3] == RowTimes(b, v, 3)
    ensures RowTimes(a, bv, i)
         == Combine(a[i][0], a[i][1], a[i][2], a[i][3],
               b[0][0] * v[0] + b[0][1] * v[1] + b[0][2] * v[2] + b[0][3] * v[3],
               b[1][0] * v[0] + b[1][1] * v[1] + b[1][2] * v[2] + b[1][3] * v[3],
               b[2][0] * v[0] + b[2][1] * v[1] + b[2][2] * v[2] + b[2][3] * v[3],
               b[3][0] * v[0] + b[3][1] * v[1] + b[3][2] * v[2] + b[3][3] * v[3])
  {
    assert RowTimes(a, bv, i) == Combine(a[i][0], a[i][1], a[i][2], a[i][3], bv[0], bv[1], bv[2], bv[3]);
  }

  /** `x0 * y0 + x1 * y1 + x2 * y2 + x3 * y3`: the sum both sides of `ApplyMatMul` are written in. */
  function Combine(x0: real, x1: real, x2: real, x3: real, y0: real, y1: real, y2: real, y3: real): real {
    x0 * y0 + x1 * y1 + x2 * y2 + x3 * y3
  }

  /** The scalar identity behind `RowRegroupAt`: regrouping a double sum of products. */
  lemma Regroup(a0: real, a1: real, a2: real, a3: real,
                b00: real, b01: real, b02: real, b03: real,
                b10: real, b11: real, b12: real, b13: real,
                b20: real, b21: real, b22: real, b23: real,
                b30: real, b31: real, b32: real, b33: real,
                v0: real, v1: real, v2: real, v3: real)
    ensures Combine(a0 * b00 + a1 * b10 + a2 * b20 + a3 * b30,
                    a0 * b01 + a1 * b11 + a2 * b21 + a3 * b31,
                    a0 * b02 + a1 * b12 + a2 * b22 + a3 * b32,
                    a0 * b03 + a1 * b13 + a2 * b23 + a3 * b33,
                    v0, v1, v2, v3)
         == Combine(a0, a1, a2, a3,
                    b00 * v0 + b01 * v1 + b02 * v2 + b03 * v3,
                    b10 * v0 + b11 * v1 + b12 * v2 + b13 * v3,
                    b20 * v0 + b21 * v1 + b22 * v2 + b23 * v3,
                    b30 * v0 + b31 * v1 + b32 * v2 + b33 * v3)
  {
  }
}
