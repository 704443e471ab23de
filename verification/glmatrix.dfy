/**
 * The parts of the gl-matrix library that the 4D core relies on, stated by
 * their contracts over real numbers.
 *
 * Vectors are sequences of four reals; a 4x4 matrix is a sequence of sixteen
 * reals in gl-matrix's column-major layout, so the entry in row `row` and
 * column `col` sits at index `4 * col + row`.
 */
module GlMatrix {

  type Vec3 = v: seq<real> | |v| == 3 witness [0.0, 0.0, 0.0]
  type Vec4 = v: seq<real> | |v| == 4 witness [0.0, 0.0, 0.0, 0.0]
  type Mat4 = m: seq<real> | |m| == 16
    witness [1.0, 0.0, 0.0, 0.0, 0.0, 1.0, 0.0, 0.0, 0.0, 0.0, 1.0, 0.0, 0.0, 0.0, 0.0, 1.0]

  function Vec(x: real, y: real, z: real, w: real): Vec4
  {
    [x, y, z, w]
  }

  function Dot(a: Vec4, b: Vec4): real
  {
    a[0] * b[0] + a[1] * b[1] + a[2] * b[2] + a[3] * b[3]
  }

  function Scale(k: real, v: Vec4): Vec4
  {
    [k * v[0], k * v[1], k * v[2], k * v[3]]
  }

  /** vec4.subtract(out, a, b): out = a - b. */
  function Sub(a: Vec4, b: Vec4): Vec4
  {
    [a[0] - b[0], a[1] - b[1], a[2] - b[2], a[3] - b[3]]
  }

  /** Two vectors with the same four components are equal. */
  lemma Vec4Ext(a: Vec4, b: Vec4)
    requires a[0] == b[0] && a[1] == b[1] && a[2] == b[2] && a[3] == b[3]
    ensures a == b
  {
  }

  /** Two matrices with the same sixteen slots are equal. */
  lemma Mat4Ext(a: Mat4, b: Mat4)
    requires forall row, col :: row < 4 && col < 4 ==> At(a, row, col) == At(b, row, col)
    ensures a == b
  {
    forall i | 0 <= i < 16
      ensures a[i] == b[i]
    {
      assert a[i] == At(a, i % 4, i / 4);
      assert b[i] == At(b, i % 4, i / 4);
    }
  }

  /** The transpose written out slot by slot. */
  lemma TransposeSlots(m: Mat4)
    ensures Transpose(m) == [m[0], m[4], m[8], m[12], m[1], m[5], m[9], m[13], m[2], m[6], m[10], m[14], m[3], m[7], m[11], m[15]]
  {
  }

  /** Entry (row, col) of the transpose is entry (col, row) of the matrix. */
  lemma AtTranspose(m: Mat4, row: nat, col: nat)
    requires row < 4 && col < 4
    ensures At(Transpose(m), row, col) == At(m, col, row)
  {
    assert (4 * col + row) % 4 == row;
    assert (4 * col + row) / 4 == col;
  }

  /** Entry (row, col) of MᵀM is the dot product of columns row and col of M. */
  lemma AtTransposeMul(m: Mat4, row: nat, col: nat)
    requires row < 4 && col < 4
    ensures At(Mul(Transpose(m), m), row, col) == Dot(Column(m, row), Column(m, col))
  {
    var t := Transpose(m);
    assert (4 * col + row) % 4 == row && (4 * col + row) / 4 == col;
    assert At(Mul(t, m), row, col) == MulEntry(t, m, row, col);
    AtTranspose(m, row, 0);
    AtTranspose(m, row, 1);
    AtTranspose(m, row, 2);
    AtTranspose(m, row, 3);
    assert t[row] == m[4 * row] && t[4 + row] == m[4 * row + 1];
    assert t[8 + row] == m[4 * row + 2] && t[12 + row] == m[4 * row + 3];
  }

  /** Columns i and j of `m` are orthonormal: unit when equal, orthogonal when not. */
  predicate OrthonormalPair(m: Mat4, i: nat, j: nat)
    requires i < 4 && j < 4
  {
    Dot(Column(m, i), Column(m, j)) == if i == j then 1.0 else 0.0
  }

  /** A matrix whose columns are orthonormal is orthogonal. */
  lemma OrthonormalColumnsOrthogonal(m: Mat4)
    requires OrthonormalPair(m, 0, 0) && OrthonormalPair(m, 1, 1) && OrthonormalPair(m, 2, 2) && OrthonormalPair(m, 3, 3)
    requires OrthonormalPair(m, 0, 1) && OrthonormalPair(m, 0, 2) && OrthonormalPair(m, 0, 3)
    requires OrthonormalPair(m, 1, 2) && OrthonormalPair(m, 1, 3) && OrthonormalPair(m, 2, 3)
    ensures IsOrthogonal(m)
  {
    forall row, col | row < 4 && col < 4
      ensures At(Mul(Transpose(m), m), row, col) == At(Identity(), row, col)
    {
      AtTransposeMul(m, row, col);
      DotSymmetric(Column(m, row), Column(m, col));
    }
    Mat4Ext(Mul(Transpose(m), m), Identity());
  }

  /** The matrix with columns c0..c3 is orthogonal when those columns are orthonormal. */
  lemma OrthonormalVectorsOrthogonal(c0: Vec4, c1: Vec4, c2: Vec4, c3: Vec4)
    requires Dot(c0, c0) == 1.0 && Dot(c1, c1) == 1.0 && Dot(c2, c2) == 1.0 && Dot(c3, c3) == 1.0
    requires Dot(c0, c1) == 0.0 && Dot(c0, c2) == 0.0 && Dot(c0, c3) == 0.0
    requires Dot(c1, c2) == 0.0 && Dot(c1, c3) == 0.0 && Dot(c2, c3) == 0.0
    ensures IsOrthogonal(FromColumns(c0, c1, c2, c3))
  {
    OrthonormalColumnsOrthogonal(FromColumns(c0, c1, c2, c3));
  }

  lemma DotScaleLeft(k: real, a: Vec4, b: Vec4)
    ensures Dot(Scale(k, a), b) == k * Dot(a, b)
  {
  }

  lemma DotScaleRight(k: real, a: Vec4, b: Vec4)
    ensures Dot(a, Scale(k, b)) == k * Dot(a, b)
  {
  }

  lemma DotSymmetric(a: Vec4, b: Vec4)
    ensures Dot(a, b) == Dot(b, a)
  {
  }

  /**
   * `k` is the factor by which vec4.normalize scales `v`: positive, and such
   * that the scaled vector has unit length. Only a nonzero `v` has one.
   */
  predicate Normalizes(k: real, v: Vec4)
  {
    k > 0.0 && k * k * Dot(v, v) == 1.0
  }

  /** vec4.normalize for a nonzero input: the positive multiple of `v` of unit length. */
  function Normalize(v: Vec4, k: real): (r: Vec4)
    requires Normalizes(k, v)
    ensures Dot(r, r) == 1.0
    ensures forall i :: 0 <= i < 4 ==> r[i] == k * v[i]
  {
    DotScaleLeft(k, v, Scale(k, v));
    DotScaleRight(k, v, v);
    Scale(k, v)
  }

  /** The normalising factor is determined by the vector, so passing it as a parameter loses nothing. */
  lemma NormalizerUnique(v: Vec4, k1: real, k2: real)
    requires Normalizes(k1, v) && Normalizes(k2, v)
    ensures k1 == k2
  {
    var n := Dot(v, v);
    assert k1 * k1 * n == k2 * k2 * n;
    assert n != 0.0;
    assert k1 * k1 == k2 * k2;
    assert (k1 - k2) * (k1 + k2) == 0.0;
  }

  /** A unit vector is its own normalisation, with factor 1. */
  lemma NormalizeUnit(v: Vec4)
    requires Dot(v, v) == 1.0
    ensures Normalizes(1.0, v) && Normalize(v, 1.0) == v
  {
    Vec4Ext(Normalize(v, 1.0), v);
  }

  /** The zero vector has no normalising factor. */
  lemma ZeroHasNoNormalizer(k: real)
    ensures !Normalizes(k, Vec(0.0, 0.0, 0.0, 0.0))
  {
  }

  /** mat4.create() and mat4.identity(out). */
  function Identity(): Mat4
  {
    [1.0, 0.0, 0.0, 0.0,
     0.0, 1.0, 0.0, 0.0,
     0.0, 0.0, 1.0, 0.0,
     0.0, 0.0, 0.0, 1.0]
  }

  /** The entry of `m` in row `row` and column `col`. */
  function At(m: Mat4, row: nat, col: nat): real
    requires row < 4 && col < 4
  {
    m[4 * col + row]
  }

  /** Column `col` of `m`: four consecutive slots. */
  function Column(m: Mat4, col: nat): Vec4
    requires col < 4
  {
    [m[4 * col], m[4 * col + 1], m[4 * col + 2], m[4 * col + 3]]
  }

  /** Row `row` of `m`: slots `row`, `4 + row`, `8 + row`, `12 + row`. */
  function Row(m: Mat4, row: nat): Vec4
    requires row < 4
  {
    [m[row], m[4 + row], m[8 + row], m[12 + row]]
  }

  /** The matrix whose columns are `c0`, `c1`, `c2`, `c3`. */
  function FromColumns(c0: Vec4, c1: Vec4, c2: Vec4, c3: Vec4): (m: Mat4)
    ensures Column(m, 0) == c0 && Column(m, 1) == c1 && Column(m, 2) == c2 && Column(m, 3) == c3
  {
    c0 + c1 + c2 + c3
  }

  /** A matrix whose slots hold c0..c3 one after the other is FromColumns(c0, c1, c2, c3). */
  lemma FromColumnsSlots(m: Mat4, c0: Vec4, c1: Vec4, c2: Vec4, c3: Vec4)
    requires m[0] == c0[0] && m[1] == c0[1] && m[2] == c0[2] && m[3] == c0[3]
    requires m[4] == c1[0] && m[5] == c1[1] && m[6] == c1[2] && m[7] == c1[3]
    requires m[8] == c2[0] && m[9] == c2[1] && m[10] == c2[2] && m[11] == c2[3]
    requires m[12] == c3[0] && m[13] == c3[1] && m[14] == c3[2] && m[15] == c3[3]
    ensures m == FromColumns(c0, c1, c2, c3)
  {
  }

  function Transpose(m: Mat4): Mat4
  {
    seq(16, i requires 0 <= i < 16 => m[4 * (i % 4) + i / 4])
  }

  /** Entry (row, col) of the product a * b. */
  function MulEntry(a: Mat4, b: Mat4, row: nat, col: nat): real
    requires row < 4 && col < 4
  {
    a[row] * b[4 * col] + a[4 + row] * b[4 * col + 1] + a[8 + row] * b[4 * col + 2] + a[12 + row] * b[4 * col + 3]
  }

  /** mat4.multiply(out, a, b): out = a * b. */
  function Mul(a: Mat4, b: Mat4): Mat4
  {
    seq(16, i requires 0 <= i < 16 => MulEntry(a, b, i % 4, i / 4))
  }

  /** The product m * v of a matrix and a column vector (GLSL `mat4 * vec4`). */
  function MulVec(m: Mat4, v: Vec4): Vec4
  {
    [Dot(Row(m, 0), v), Dot(Row(m, 1), v), Dot(Row(m, 2), v), Dot(Row(m, 3), v)]
  }

  /** m times the unit vector e_k is column k of m. */
  lemma MulVecUnits(m: Mat4)
    ensures MulVec(m, Vec(1.0, 0.0, 0.0, 0.0)) == Column(m, 0)
    ensures MulVec(m, Vec(0.0, 1.0, 0.0, 0.0)) == Column(m, 1)
    ensures MulVec(m, Vec(0.0, 0.0, 1.0, 0.0)) == Column(m, 2)
    ensures MulVec(m, Vec(0.0, 0.0, 0.0, 1.0)) == Column(m, 3)
  {
    var q0 := MulVec(m, Vec(1.0, 0.0, 0.0, 0.0));
    assert q0[0] == m[0] && q0[1] == m[1] && q0[2] == m[2] && q0[3] == m[3];
    var q1 := MulVec(m, Vec(0.0, 1.0, 0.0, 0.0));
    assert q1[0] == m[4] && q1[1] == m[5] && q1[2] == m[6] && q1[3] == m[7];
    var q2 := MulVec(m, Vec(0.0, 0.0, 1.0, 0.0));
    assert q2[0] == m[8] && q2[1] == m[9] && q2[2] == m[10] && q2[3] == m[11];
    var q3 := MulVec(m, Vec(0.0, 0.0, 0.0, 1.0));
    assert q3[0] == m[12] && q3[1] == m[13] && q3[2] == m[14] && q3[3] == m[15];
  }

  /** Orthogonal: the transpose is a left inverse. */
  predicate IsOrthogonal(m: Mat4)
  {
    Mul(Transpose(m), m) == Identity()
  }

  /**
   * mat4.fromZRotation, mat4.fromXRotation and mat4.fromYRotation, with
   * `c` and `s` the cosine and sine of the angle: the right-handed rotations
   * about the Z, X and Y axes with the W row and column untouched.
   */
  function FromZRotation(c: real, s: real): Mat4
  {
    [c, s, 0.0, 0.0,
     -s, c, 0.0, 0.0,
     0.0, 0.0, 1.0, 0.0,
     0.0, 0.0, 0.0, 1.0]
  }

  function FromXRotation(c: real, s: real): Mat4
  {
    [1.0, 0.0, 0.0, 0.0,
     0.0, c, s, 0.0,
     0.0, -s, c, 0.0,
     0.0, 0.0, 0.0, 1.0]
  }

  function FromYRotation(c: real, s: real): Mat4
  {
    [c, 0.0, -s, 0.0,
     0.0, 1.0, 0.0, 0.0,
     s, 0.0, c, 0.0,
     0.0, 0.0, 0.0, 1.0]
  }

  /** mat4.identity(out): all sixteen slots of `out` rewritten. */
  method SetIdentity(out: array<real>)
    requires out.Length == 16
    modifies out
    ensures out[..] == Identity()
  {
    forall i | 0 <= i < 16 {
      out[i] := if i % 5 == 0 then 1.0 else 0.0;
    }
  }

  /** vec4.subtract(out, a, b). */
  method SubtractInto(out: array<real>, a: array<real>, b: array<real>)
    requires out.Length == 4 && a.Length == 4 && b.Length == 4
    modifies out
    ensures out[..] == Sub(old(a[..]), old(b[..]))
  {
    var x, y, z, w := a[0] - b[0], a[1] - b[1], a[2] - b[2], a[3] - b[3];
    out[0], out[1], out[2], out[3] := x, y, z, w;
  }

  /** vec4.normalize(v, v) in place, for a nonzero `v` whose normalising factor is `k`. */
  method NormalizeInPlace(v: array<real>, k: real)
    requires v.Length == 4 && Normalizes(k, v[..])
    modifies v
    ensures v[..] == Normalize(old(v[..]), k)
  {
    ghost var before: Vec4 := v[..];
    v[0], v[1], v[2], v[3] := k * v[0], k * v[1], k * v[2], k * v[3];
    Vec4Ext(v[..], Normalize(before, k));
  }
}
