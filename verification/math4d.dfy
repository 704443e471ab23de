/**
 * The 4D algebra of math.js: the generalised cross product, the six
 * rotation-plane generators and the 4D look-at basis.
 *
 * Every routine of math.js writes into a caller-supplied `out` buffer. Each
 * one is given here as a pure function on values, which states what it
 * computes, and, where the routine is more than a delegation to gl-matrix, as
 * a method over `array<real>` that performs the same writes and is proved to
 * leave the function's value in `out`.
 *
 * Angles enter as their cosine `c` and sine `s`.
 */
module Math4D {
  import opened GlMatrix

  // ---------------------------------------------------------------------------
  // vec4.cross4D
  // ---------------------------------------------------------------------------

  /** The cofactor expansion of U against the minors A..F, as math.js:98-101 writes it. */
  function Expand(U: Vec4, A: real, B: real, C: real, D: real, E: real, F: real): Vec4
  {
    [U[1] * F - U[2] * E + U[3] * D,
     -(U[0] * F) + U[2] * C - U[3] * B,
     U[0] * E - U[1] * C + U[3] * A,
     -(U[0] * D) + U[1] * B - U[2] * A]
  }

  /**
   * vec4.cross4D(out, U, V, W): the six 2x2 minors A..F of the rows V and W,
   * expanded against U by cofactors.
   */
  function Cross4D(U: Vec4, V: Vec4, W: Vec4): Vec4
  {
    var A := V[0] * W[1] - V[1] * W[0];
    var B := V[0] * W[2] - V[2] * W[0];
    var C := V[0] * W[3] - V[3] * W[0];
    var D := V[1] * W[2] - V[2] * W[1];
    var E := V[1] * W[3] - V[3] * W[1];
    var F := V[2] * W[3] - V[3] * W[2];
    Expand(U, A, B, C, D, E, F)
  }

  /** The cross product is orthogonal to each of its three arguments. */
  lemma Cross4DOrthogonal(U: Vec4, V: Vec4, W: Vec4)
    ensures Dot(Cross4D(U, V, W), U) == 0.0
    ensures Dot(Cross4D(U, V, W), V) == 0.0
    ensures Dot(Cross4D(U, V, W), W) == 0.0
  {
  }

  /** Exchanging V and W flips the sign of every minor and so of the result. */
  lemma Cross4DSwapNegates(U: Vec4, V: Vec4, W: Vec4)
    ensures Cross4D(U, W, V) == Scale(-1.0, Cross4D(U, V, W))
  {
  }

  /** Equal V and W, or a zero U, give the zero vector. */
  lemma Cross4DDegenerate(U: Vec4, V: Vec4, W: Vec4)
    ensures Cross4D(U, V, V) == Vec(0.0, 0.0, 0.0, 0.0)
    ensures Cross4D(Vec(0.0, 0.0, 0.0, 0.0), V, W) == Vec(0.0, 0.0, 0.0, 0.0)
  {
  }

  /**
   * vec4.cross4D writing its result into `out`, one slot at a time. The six
   * minors are taken from V and W before the first write; U is read again for
   * every slot, which is why `out` must not be U (the source leaves that to its
   * callers, and lookAt4D always passes a fresh `out`).
   */
  method Cross4DInto(out: array<real>, U: array<real>, V: array<real>, W: array<real>)
    requires out.Length == 4 && U.Length == 4 && V.Length == 4 && W.Length == 4
    requires out != U
    modifies out
    ensures out[..] == Cross4D(old(U[..]), old(V[..]), old(W[..]))
  {
    var r := Cross4D(U[..], V[..], W[..]);
    out[0] := r[0];
    out[1] := r[1];
    out[2] := r[2];
    out[3] := r[3];
    Vec4Ext(out[..], r);
  }

  // ---------------------------------------------------------------------------
  // Rotation-plane generators
  // ---------------------------------------------------------------------------

  /**
   * Entry (row, col) of the rotation by the angle (c, s) in the plane of axes
   * p and q that turns e_p towards e_q: e_p goes to c e_p + s e_q, e_q goes
   * to -s e_p + c e_q, and the other two axes are fixed.
   */
  function PlaneEntry(p: nat, q: nat, c: real, s: real, row: nat, col: nat): real
  {
    if row == col then (if row == p || row == q then c else 1.0)
    else if row == q && col == p then s
    else if row == p && col == q then -s
    else 0.0
  }

  /** The reference rotation in the plane (p, q), in column-major layout. */
  function PlaneRotation(p: nat, q: nat, c: real, s: real): (m: Mat4)
    requires p < 4 && q < 4 && p != q
    ensures forall row, col :: row < 4 && col < 4 ==> At(m, row, col) == PlaneEntry(p, q, c, s, row, col)
  {
    seq(16, i requires 0 <= i < 16 => PlaneEntry(p, q, c, s, i % 4, i / 4))
  }

  /** mat4.fromXYRotation: delegates to mat4.fromZRotation; turns e0 towards e1. */
  function FromXYRotation(c: real, s: real): Mat4
  {
    FromZRotation(c, s)
  }

  /** mat4.fromYZRotation: delegates to mat4.fromXRotation; turns e1 towards e2. */
  function FromYZRotation(c: real, s: real): Mat4
  {
    FromXRotation(c, s)
  }

  /** mat4.fromZXRotation: delegates to mat4.fromYRotation; turns e2 towards e0. */
  function FromZXRotation(c: real, s: real): Mat4
  {
    FromYRotation(c, s)
  }

  /**
   * mat4.fromXWRotation: the identity with slots 0, 3, 12, 15 set to
   * c, s, -s, c; it turns e0 towards e3.
   */
  function FromXWRotation(c: real, s: real): Mat4
  {
    [c, 0.0, 0.0, s,
     0.0, 1.0, 0.0, 0.0,
     0.0, 0.0, 1.0, 0.0,
     -s, 0.0, 0.0, c]
  }

  /**
   * mat4.fromYWRotation: the identity with slots 5, 7, 13, 15 set to
   * c, -s, s, c; it turns e3 towards e1, the opposite sense to XW.
   */
  function FromYWRotation(c: real, s: real): Mat4
  {
    [1.0, 0.0, 0.0, 0.0,
     0.0, c, 0.0, -s,
     0.0, 0.0, 1.0, 0.0,
     0.0, s, 0.0, c]
  }

  /**
   * mat4.fromZWRotation: the identity with slots 10, 11, 14, 15 set to
   * c, -s, s, c; it turns e3 towards e2, the opposite sense to XW.
   */
  function FromZWRotation(c: real, s: real): Mat4
  {
    [1.0, 0.0, 0.0, 0.0,
     0.0, 1.0, 0.0, 0.0,
     0.0, 0.0, c, -s,
     0.0, 0.0, s, c]
  }

  /**
   * The three W-plane generators are the identity with four slots overwritten,
   * and those four slots are the only ones where they differ from it.
   */
  lemma WGeneratorsFromIdentity(c: real, s: real)
    ensures FromXWRotation(c, s) == Identity()[0 := c][3 := s][12 := -s][15 := c]
    ensures FromYWRotation(c, s) == Identity()[5 := c][7 := -s][13 := s][15 := c]
    ensures FromZWRotation(c, s) == Identity()[10 := c][11 := -s][14 := s][15 := c]
    ensures forall i :: 0 <= i < 16 && i != 0 && i != 3 && i != 12 && i != 15 ==> FromXWRotation(c, s)[i] == Identity()[i]
    ensures forall i :: 0 <= i < 16 && i != 5 && i != 7 && i != 13 && i != 15 ==> FromYWRotation(c, s)[i] == Identity()[i]
    ensures forall i :: 0 <= i < 16 && i != 10 && i != 11 && i != 14 && i != 15 ==> FromZWRotation(c, s)[i] == Identity()[i]
  {
  }

  /** mat4.fromXWRotation(out, radians): reset `out` to the identity, then write the four slots. */
  method FromXWRotationInto(out: array<real>, c: real, s: real)
    requires out.Length == 16
    modifies out
    ensures out[..] == FromXWRotation(c, s)
  {
    SetIdentity(out);
    out[0] := c;
    out[3] := s;
    out[12] := -s;
    out[15] := c;
    WGeneratorsFromIdentity(c, s);
  }

  /** mat4.fromYWRotation(out, radians): reset `out` to the identity, then write the four slots. */
  method FromYWRotationInto(out: array<real>, c: real, s: real)
    requires out.Length == 16
    modifies out
    ensures out[..] == FromYWRotation(c, s)
  {
    SetIdentity(out);
    out[5] := c;
    out[7] := -s;
    out[13] := s;
    out[15] := c;
    WGeneratorsFromIdentity(c, s);
  }

  /** mat4.fromZWRotation(out, radians): reset `out` to the identity, then write the four slots. */
  method FromZWRotationInto(out: array<real>, c: real, s: real)
    requires out.Length == 16
    modifies out
    ensures out[..] == FromZWRotation(c, s)
  {
    SetIdentity(out);
    out[10] := c;
    out[11] := -s;
    out[14] := s;
    out[15] := c;
    WGeneratorsFromIdentity(c, s);
  }

  /** Transposing a plane rotation reverses its angle. */
  lemma PlaneRotationTranspose(p: nat, q: nat, c: real, s: real)
    requires p < 4 && q < 4 && p != q
    ensures Transpose(PlaneRotation(p, q, c, s)) == PlaneRotation(p, q, c, -s)
  {
    var m := PlaneRotation(p, q, c, s);
    forall row, col | row < 4 && col < 4
      ensures At(Transpose(m), row, col) == At(PlaneRotation(p, q, c, -s), row, col)
    {
      AtTranspose(m, row, col);
    }
    Mat4Ext(Transpose(m), PlaneRotation(p, q, c, -s));
  }

  /** Turning e_q towards e_p is turning e_p towards e_q by the opposite angle. */
  lemma PlaneRotationSwap(p: nat, q: nat, c: real, s: real)
    requires p < 4 && q < 4 && p != q
    ensures PlaneRotation(q, p, c, s) == PlaneRotation(p, q, c, -s)
  {
  }

  lemma XYRotationPlane(c: real, s: real)
    ensures FromXYRotation(c, s) == PlaneRotation(0, 1, c, s)
  {
  }

  lemma XYRotationTranspose(c: real, s: real)
    ensures Transpose(FromXYRotation(c, s)) == FromXYRotation(c, -s)
  {
    TransposeSlots(FromXYRotation(c, s));
  }

  lemma XYRotationOrthogonal(c: real, s: real)
    requires c * c + s * s == 1.0
    ensures IsOrthogonal(FromXYRotation(c, s))
  {
    assert FromXYRotation(c, s) == FromColumns(Vec(c, s, 0.0, 0.0), Vec(-s, c, 0.0, 0.0), Vec(0.0, 0.0, 1.0, 0.0), Vec(0.0, 0.0, 0.0, 1.0));
    OrthonormalVectorsOrthogonal(Vec(c, s, 0.0, 0.0), Vec(-s, c, 0.0, 0.0), Vec(0.0, 0.0, 1.0, 0.0), Vec(0.0, 0.0, 0.0, 1.0));
  }

  lemma YZRotationPlane(c: real, s: real)
    ensures FromYZRotation(c, s) == PlaneRotation(1, 2, c, s)
  {
  }

  lemma YZRotationTranspose(c: real, s: real)
    ensures Transpose(FromYZRotation(c, s)) == FromYZRotation(c, -s)
  {
    TransposeSlots(FromYZRotation(c, s));
  }

  lemma YZRotationOrthogonal(c: real, s: real)
    requires c * c + s * s == 1.0
    ensures IsOrthogonal(FromYZRotation(c, s))
  {
    assert FromYZRotation(c, s) == FromColumns(Vec(1.0, 0.0, 0.0, 0.0), Vec(0.0, c, s, 0.0), Vec(0.0, -s, c, 0.0), Vec(0.0, 0.0, 0.0, 1.0));
    OrthonormalVectorsOrthogonal(Vec(1.0, 0.0, 0.0, 0.0), Vec(0.0, c, s, 0.0), Vec(0.0, -s, c, 0.0), Vec(0.0, 0.0, 0.0, 1.0));
  }

  lemma ZXRotationPlane(c: real, s: real)
    ensures FromZXRotation(c, s) == PlaneRotation(2, 0, c, s)
  {
  }

  lemma ZXRotationTranspose(c: real, s: real)
    ensures Transpose(FromZXRotation(c, s)) == FromZXRotation(c, -s)
  {
    TransposeSlots(FromZXRotation(c, s));
  }

  lemma ZXRotationOrthogonal(c: real, s: real)
    requires c * c + s * s == 1.0
    ensures IsOrthogonal(FromZXRotation(c, s))
  {
    assert FromZXRotation(c, s) == FromColumns(Vec(c, 0.0, -s, 0.0), Vec(0.0, 1.0, 0.0, 0.0), Vec(s, 0.0, c, 0.0), Vec(0.0, 0.0, 0.0, 1.0));
    OrthonormalVectorsOrthogonal(Vec(c, 0.0, -s, 0.0), Vec(0.0, 1.0, 0.0, 0.0), Vec(s, 0.0, c, 0.0), Vec(0.0, 0.0, 0.0, 1.0));
  }

  lemma XWRotationPlane(c: real, s: real)
    ensures FromXWRotation(c, s) == PlaneRotation(0, 3, c, s)
  {
  }

  lemma XWRotationTranspose(c: real, s: real)
    ensures Transpose(FromXWRotation(c, s)) == FromXWRotation(c, -s)
  {
    TransposeSlots(FromXWRotation(c, s));
  }

  lemma XWRotationOrthogonal(c: real, s: real)
    requires c * c + s * s == 1.0
    ensures IsOrthogonal(FromXWRotation(c, s))
  {
    assert FromXWRotation(c, s) == FromColumns(Vec(c, 0.0, 0.0, s), Vec(0.0, 1.0, 0.0, 0.0), Vec(0.0, 0.0, 1.0, 0.0), Vec(-s, 0.0, 0.0, c));
    OrthonormalVectorsOrthogonal(Vec(c, 0.0, 0.0, s), Vec(0.0, 1.0, 0.0, 0.0), Vec(0.0, 0.0, 1.0, 0.0), Vec(-s, 0.0, 0.0, c));
  }

  lemma YWRotationPlane(c: real, s: real)
    ensures FromYWRotation(c, s) == PlaneRotation(3, 1, c, s)
  {
  }

  lemma YWRotationTranspose(c: real, s: real)
    ensures Transpose(FromYWRotation(c, s)) == FromYWRotation(c, -s)
  {
    TransposeSlots(FromYWRotation(c, s));
  }

  lemma YWRotationOrthogonal(c: real, s: real)
    requires c * c + s * s == 1.0
    ensures IsOrthogonal(FromYWRotation(c, s))
  {
    assert FromYWRotation(c, s) == FromColumns(Vec(1.0, 0.0, 0.0, 0.0), Vec(0.0, c, 0.0, -s), Vec(0.0, 0.0, 1.0, 0.0), Vec(0.0, s, 0.0, c));
    OrthonormalVectorsOrthogonal(Vec(1.0, 0.0, 0.0, 0.0), Vec(0.0, c, 0.0, -s), Vec(0.0, 0.0, 1.0, 0.0), Vec(0.0, s, 0.0, c));
  }

  lemma ZWRotationPlane(c: real, s: real)
    ensures FromZWRotation(c, s) == PlaneRotation(3, 2, c, s)
  {
  }

  lemma ZWRotationTranspose(c: real, s: real)
    ensures Transpose(FromZWRotation(c, s)) == FromZWRotation(c, -s)
  {
    TransposeSlots(FromZWRotation(c, s));
  }

  lemma ZWRotationOrthogonal(c: real, s: real)
    requires c * c + s * s == 1.0
    ensures IsOrthogonal(FromZWRotation(c, s))
  {
    assert FromZWRotation(c, s) == FromColumns(Vec(1.0, 0.0, 0.0, 0.0), Vec(0.0, 1.0, 0.0, 0.0), Vec(0.0, 0.0, c, -s), Vec(0.0, 0.0, s, c));
    OrthonormalVectorsOrthogonal(Vec(1.0, 0.0, 0.0, 0.0), Vec(0.0, 1.0, 0.0, 0.0), Vec(0.0, 0.0, c, -s), Vec(0.0, 0.0, s, c));
  }

  /** A matrix whose transpose is `a` and which is orthogonal is a right inverse of `a`. */
  lemma RightInverse(a: Mat4, b: Mat4)
    requires Transpose(b) == a && IsOrthogonal(b)
    ensures Mul(a, b) == Identity()
  {
  }

  lemma XYRotationInverse(c: real, s: real)
    requires c * c + s * s == 1.0
    ensures Mul(FromXYRotation(c, s), FromXYRotation(c, -s)) == Identity()
  {
    XYRotationTranspose(c, -s);
    OppositeAngle(c, s);
    XYRotationOrthogonal(c, -s);
    RightInverse(FromXYRotation(c, s), FromXYRotation(c, -s));
  }

  lemma YZRotationInverse(c: real, s: real)
    requires c * c + s * s == 1.0
    ensures Mul(FromYZRotation(c, s), FromYZRotation(c, -s)) == Identity()
  {
    YZRotationTranspose(c, -s);
    OppositeAngle(c, s);
    YZRotationOrthogonal(c, -s);
    RightInverse(FromYZRotation(c, s), FromYZRotation(c, -s));
  }

  lemma ZXRotationInverse(c: real, s: real)
    requires c * c + s * s == 1.0
    ensures Mul(FromZXRotation(c, s), FromZXRotation(c, -s)) == Identity()
  {
    ZXRotationTranspose(c, -s);
    OppositeAngle(c, s);
    ZXRotationOrthogonal(c, -s);
    RightInverse(FromZXRotation(c, s), FromZXRotation(c, -s));
  }

  lemma XWRotationInverse(c: real, s: real)
    requires c * c + s * s == 1.0
    ensures Mul(FromXWRotation(c, s), FromXWRotation(c, -s)) == Identity()
  {
    XWRotationTranspose(c, -s);
    OppositeAngle(c, s);
    XWRotationOrthogonal(c, -s);
    RightInverse(FromXWRotation(c, s), FromXWRotation(c, -s));
  }

  lemma YWRotationInverse(c: real, s: real)
    requires c * c + s * s == 1.0
    ensures Mul(FromYWRotation(c, s), FromYWRotation(c, -s)) == Identity()
  {
    YWRotationTranspose(c, -s);
    OppositeAngle(c, s);
    YWRotationOrthogonal(c, -s);
    RightInverse(FromYWRotation(c, s), FromYWRotation(c, -s));
  }

  lemma ZWRotationInverse(c: real, s: real)
    requires c * c + s * s == 1.0
    ensures Mul(FromZWRotation(c, s), FromZWRotation(c, -s)) == Identity()
  {
    ZWRotationTranspose(c, -s);
    OppositeAngle(c, s);
    ZWRotationOrthogonal(c, -s);
    RightInverse(FromZWRotation(c, s), FromZWRotation(c, -s));
  }

  /** e0 goes to c e0 + s e1 and e1 to -s e0 + c e1; e2 and e3 stay put. */
  lemma XYRotationImages(c: real, s: real)
    ensures MulVec(FromXYRotation(c, s), Vec(1.0, 0.0, 0.0, 0.0)) == Vec(c, s, 0.0, 0.0)
    ensures MulVec(FromXYRotation(c, s), Vec(0.0, 1.0, 0.0, 0.0)) == Vec(-s, c, 0.0, 0.0)
    ensures MulVec(FromXYRotation(c, s), Vec(0.0, 0.0, 1.0, 0.0)) == Vec(0.0, 0.0, 1.0, 0.0)
    ensures MulVec(FromXYRotation(c, s), Vec(0.0, 0.0, 0.0, 1.0)) == Vec(0.0, 0.0, 0.0, 1.0)
  {
    MulVecUnits(FromXYRotation(c, s));
  }

  /** e1 goes to c e1 + s e2 and e2 to -s e1 + c e2; e0 and e3 stay put. */
  lemma YZRotationImages(c: real, s: real)
    ensures MulVec(FromYZRotation(c, s), Vec(0.0, 1.0, 0.0, 0.0)) == Vec(0.0, c, s, 0.0)
    ensures MulVec(FromYZRotation(c, s), Vec(0.0, 0.0, 1.0, 0.0)) == Vec(0.0, -s, c, 0.0)
    ensures MulVec(FromYZRotation(c, s), Vec(1.0, 0.0, 0.0, 0.0)) == Vec(1.0, 0.0, 0.0, 0.0)
    ensures MulVec(FromYZRotation(c, s), Vec(0.0, 0.0, 0.0, 1.0)) == Vec(0.0, 0.0, 0.0, 1.0)
  {
    MulVecUnits(FromYZRotation(c, s));
  }

  /** e2 goes to c e2 + s e0 and e0 to -s e2 + c e0; e1 and e3 stay put. */
  lemma ZXRotationImages(c: real, s: real)
    ensures MulVec(FromZXRotation(c, s), Vec(0.0, 0.0, 1.0, 0.0)) == Vec(s, 0.0, c, 0.0)
    ensures MulVec(FromZXRotation(c, s), Vec(1.0, 0.0, 0.0, 0.0)) == Vec(c, 0.0, -s, 0.0)
    ensures MulVec(FromZXRotation(c, s), Vec(0.0, 1.0, 0.0, 0.0)) == Vec(0.0, 1.0, 0.0, 0.0)
    ensures MulVec(FromZXRotation(c, s), Vec(0.0, 0.0, 0.0, 1.0)) == Vec(0.0, 0.0, 0.0, 1.0)
  {
    MulVecUnits(FromZXRotation(c, s));
  }

  /** e0 goes to c e0 + s e3 and e3 to -s e0 + c e3; e1 and e2 stay put. */
  lemma XWRotationImages(c: real, s: real)
    ensures MulVec(FromXWRotation(c, s), Vec(1.0, 0.0, 0.0, 0.0)) == Vec(c, 0.0, 0.0, s)
    ensures MulVec(FromXWRotation(c, s), Vec(0.0, 0.0, 0.0, 1.0)) == Vec(-s, 0.0, 0.0, c)
    ensures MulVec(FromXWRotation(c, s), Vec(0.0, 1.0, 0.0, 0.0)) == Vec(0.0, 1.0, 0.0, 0.0)
    ensures MulVec(FromXWRotation(c, s), Vec(0.0, 0.0, 1.0, 0.0)) == Vec(0.0, 0.0, 1.0, 0.0)
  {
    MulVecUnits(FromXWRotation(c, s));
  }

  /** e3 goes to c e3 + s e1 and e1 to -s e3 + c e1; e0 and e2 stay put. */
  lemma YWRotationImages(c: real, s: real)
    ensures MulVec(FromYWRotation(c, s), Vec(0.0, 0.0, 0.0, 1.0)) == Vec(0.0, s, 0.0, c)
    ensures MulVec(FromYWRotation(c, s), Vec(0.0, 1.0, 0.0, 0.0)) == Vec(0.0, c, 0.0, -s)
    ensures MulVec(FromYWRotation(c, s), Vec(1.0, 0.0, 0.0, 0.0)) == Vec(1.0, 0.0, 0.0, 0.0)
    ensures MulVec(FromYWRotation(c, s), Vec(0.0, 0.0, 1.0, 0.0)) == Vec(0.0, 0.0, 1.0, 0.0)
  {
    MulVecUnits(FromYWRotation(c, s));
  }

  /** e3 goes to c e3 + s e2 and e2 to -s e3 + c e2; e0 and e1 stay put. */
  lemma ZWRotationImages(c: real, s: real)
    ensures MulVec(FromZWRotation(c, s), Vec(0.0, 0.0, 0.0, 1.0)) == Vec(0.0, 0.0, s, c)
    ensures MulVec(FromZWRotation(c, s), Vec(0.0, 0.0, 1.0, 0.0)) == Vec(0.0, 0.0, c, -s)
    ensures MulVec(FromZWRotation(c, s), Vec(1.0, 0.0, 0.0, 0.0)) == Vec(1.0, 0.0, 0.0, 0.0)
    ensures MulVec(FromZWRotation(c, s), Vec(0.0, 1.0, 0.0, 0.0)) == Vec(0.0, 1.0, 0.0, 0.0)
  {
    MulVecUnits(FromZWRotation(c, s));
  }

  /** (c, -s) is on the unit circle when (c, s) is. */
  lemma OppositeAngle(c: real, s: real)
    requires c * c + s * s == 1.0
    ensures c * c + (-s) * (-s) == 1.0
  {
  }

  /** The zero angle (c, s) = (1, 0) gives the identity. */
  lemma PlaneRotationZero(p: nat, q: nat)
    requires p < 4 && q < 4 && p != q
    ensures PlaneRotation(p, q, 1.0, 0.0) == Identity()
  {
  }

  // ---------------------------------------------------------------------------
  // mat4.lookAt4D
  // ---------------------------------------------------------------------------

  /**
   * The normalising factors lookAt4D meets on its way: `kd` for
   * target - position, `ka` for the cross product giving Wa and `kb` for the
   * one giving Wb. Each must exist, so each of those vectors must be nonzero.
   */
  predicate LookAtScales(position: Vec4, target: Vec4, up: Vec4, over: Vec4, kd: real, ka: real, kb: real)
  {
    Normalizes(kd, Sub(target, position)) &&
    var wd := Normalize(Sub(target, position), kd);
    Normalizes(ka, Cross4D(up, over, wd)) &&
    var wa := Normalize(Cross4D(up, over, wd), ka);
    Normalizes(kb, Cross4D(over, wd, wa))
  }

  /** The four basis vectors lookAt4D computes, named as in math.js. */
  datatype Basis4D = Basis4D(wa: Vec4, wb: Vec4, wc: Vec4, wd: Vec4)

  /**
   * The basis of mat4.lookAt4D: Wd is the unit vector from position towards
   * target, Wa the unit cross product of up, over and Wd, Wb the unit cross
   * product of over, Wd and Wa, and Wc the cross product of Wd, Wa and Wb,
   * which the source leaves unnormalised.
   */
  function LookAt4DBasis(position: Vec4, target: Vec4, up: Vec4, over: Vec4, kd: real, ka: real, kb: real): (f: Basis4D)
    requires LookAtScales(position, target, up, over, kd, ka, kb)
    ensures Dot(f.wa, f.wa) == 1.0 && Dot(f.wb, f.wb) == 1.0 && Dot(f.wd, f.wd) == 1.0
  {
    var wd := Normalize(Sub(target, position), kd);
    var wa := Normalize(Cross4D(up, over, wd), ka);
    var wb := Normalize(Cross4D(over, wd, wa), kb);
    var wc := Cross4D(wd, wa, wb);
    Basis4D(wa, wb, wc, wd)
  }

  /** mat4.lookAt4D: the columns of the result are Wa, Wb, Wc and Wd, in that order. */
  function LookAt4D(position: Vec4, target: Vec4, up: Vec4, over: Vec4, kd: real, ka: real, kb: real): Mat4
    requires LookAtScales(position, target, up, over, kd, ka, kb)
  {
    var f := LookAt4DBasis(position, target, up, over, kd, ka, kb);
    FromColumns(f.wa, f.wb, f.wc, f.wd)
  }

  /** The look-at matrix has the basis vectors as its columns. */
  lemma LookAt4DFromBasis(position: Vec4, target: Vec4, up: Vec4, over: Vec4, kd: real, ka: real, kb: real, f: Basis4D)
    requires LookAtScales(position, target, up, over, kd, ka, kb)
    requires LookAt4DBasis(position, target, up, over, kd, ka, kb) == f
    ensures LookAt4D(position, target, up, over, kd, ka, kb) == FromColumns(f.wa, f.wb, f.wc, f.wd)
  {
  }

  /**
   * The columns of the look-at matrix: column 3 is the positive multiple of
   * target - position with unit length, and columns 0, 1 and 3 have unit length.
   */
  lemma LookAt4DColumns(position: Vec4, target: Vec4, up: Vec4, over: Vec4, kd: real, ka: real, kb: real)
    requires LookAtScales(position, target, up, over, kd, ka, kb)
    ensures var m := LookAt4D(position, target, up, over, kd, ka, kb);
      kd > 0.0 && Column(m, 3) == Scale(kd, Sub(target, position)) &&
      Dot(Column(m, 0), Column(m, 0)) == 1.0 && Dot(Column(m, 1), Column(m, 1)) == 1.0 &&
      Dot(Column(m, 3), Column(m, 3)) == 1.0
  {
  }

  /** The four columns of the look-at matrix are pairwise orthogonal. */
  lemma LookAt4DOrthogonalColumns(position: Vec4, target: Vec4, up: Vec4, over: Vec4, kd: real, ka: real, kb: real)
    requires LookAtScales(position, target, up, over, kd, ka, kb)
    ensures var m := LookAt4D(position, target, up, over, kd, ka, kb);
      Dot(Column(m, 0), Column(m, 1)) == 0.0 && Dot(Column(m, 0), Column(m, 2)) == 0.0 &&
      Dot(Column(m, 0), Column(m, 3)) == 0.0 && Dot(Column(m, 1), Column(m, 2)) == 0.0 &&
      Dot(Column(m, 1), Column(m, 3)) == 0.0 && Dot(Column(m, 2), Column(m, 3)) == 0.0
  {
    var f := LookAt4DBasis(position, target, up, over, kd, ka, kb);
    var wd := f.wd;
    var xa := Cross4D(up, over, wd);
    var xb := Cross4D(over, wd, f.wa);
    // Wa is a multiple of a vector orthogonal to Wd.
    Cross4DOrthogonal(up, over, wd);
    DotScaleLeft(ka, xa, wd);
    // Wb is a multiple of a vector orthogonal to Wd and Wa.
    Cross4DOrthogonal(over, wd, f.wa);
    DotScaleRight(kb, f.wa, xb);
    DotScaleLeft(kb, xb, wd);
    // Wc is orthogonal to Wd, Wa and Wb by construction.
    Cross4DOrthogonal(wd, f.wa, f.wb);
    DotSymmetric(f.wa, f.wc);
    DotSymmetric(f.wb, f.wc);
    DotSymmetric(f.wc, wd);
  }

  /**
   * The first half of mat4.lookAt4D: fresh temporaries wd, wa, wb and wc,
   * filled with subtract, cross4D and in-place normalize in the source's order.
   */
  method LookAt4DTemporaries(position: array<real>, target: array<real>, up: array<real>, over: array<real>,
                             kd: real, ka: real, kb: real)
    returns (wa: array<real>, wb: array<real>, wc: array<real>, wd: array<real>)
    requires position.Length == 4 && target.Length == 4 && up.Length == 4 && over.Length == 4
    requires LookAtScales(position[..], target[..], up[..], over[..], kd, ka, kb)
    ensures fresh(wa) && fresh(wb) && fresh(wc) && fresh(wd)
    ensures wa.Length == 4 && wb.Length == 4 && wc.Length == 4 && wd.Length == 4
    ensures Basis4D(wa[..], wb[..], wc[..], wd[..]) == LookAt4DBasis(position[..], target[..], up[..], over[..], kd, ka, kb)
  {
    ghost var f := LookAt4DBasis(position[..], target[..], up[..], over[..], kd, ka, kb);
    wd := new real[4];
    SubtractInto(wd, target, position);
    NormalizeInPlace(wd, kd);
    assert wd[..] == f.wd;
    wa := new real[4];
    Cross4DInto(wa, up, over, wd);
    assert wa[..] == Cross4D(up[..], over[..], f.wd);
    NormalizeInPlace(wa, ka);
    assert wa[..] == f.wa;
    wb := new real[4];
    Cross4DInto(wb, over, wd, wa);
    assert wb[..] == Cross4D(over[..], f.wd, f.wa);
    NormalizeInPlace(wb, kb);
    assert wb[..] == f.wb;
    wc := new real[4];
    Cross4DInto(wc, wd, wa, wb);
  }

  /** Column `col` of `out` receives the four slots of `w`; the other twelve slots are kept. */
  method CopyColumn(out: array<real>, col: nat, w: array<real>)
    requires out.Length == 16 && w.Length == 4 && col < 4 && out != w
    modifies out
    ensures out[4 * col] == w[0] && out[4 * col + 1] == w[1] && out[4 * col + 2] == w[2] && out[4 * col + 3] == w[3]
    ensures forall i :: 0 <= i < 16 && i / 4 != col ==> out[i] == old(out[i])
  {
    out[4 * col] := w[0];
    out[4 * col + 1] := w[1];
    out[4 * col + 2] := w[2];
    out[4 * col + 3] := w[3];
  }

  /** The second half of mat4.lookAt4D: wa, wb, wc and wd copied slot by slot into columns 0 to 3. */
  method CopyColumnsInto(out: array<real>, wa: array<real>, wb: array<real>, wc: array<real>, wd: array<real>)
    requires out.Length == 16 && wa.Length == 4 && wb.Length == 4 && wc.Length == 4 && wd.Length == 4
    requires out != wa && out != wb && out != wc && out != wd
    modifies out
    ensures out[..] == FromColumns(wa[..], wb[..], wc[..], wd[..])
  {
    CopyColumn(out, 0, wa);
    CopyColumn(out, 1, wb);
    CopyColumn(out, 2, wc);
    CopyColumn(out, 3, wd);
    FromColumnsSlots(out[..], wa[..], wb[..], wc[..], wd[..]);
  }

  /**
   * mat4.lookAt4D(out, position, target, up, over): computes the temporaries,
   * then copies wa, wb, wc and wd slot by slot into columns 0 to 3 of `out`,
   * overwriting all sixteen slots.
   */
  method LookAt4DInto(out: array<real>, position: array<real>, target: array<real>, up: array<real>, over: array<real>,
                      kd: real, ka: real, kb: real)
    requires out.Length == 16 && position.Length == 4 && target.Length == 4 && up.Length == 4 && over.Length == 4
    requires LookAtScales(position[..], target[..], up[..], over[..], kd, ka, kb)
    modifies out
    ensures out[..] == LookAt4D(old(position[..]), old(target[..]), old(up[..]), old(over[..]), kd, ka, kb)
  {
    var wa, wb, wc, wd := LookAt4DTemporaries(position, target, up, over, kd, ka, kb);
    ghost var f := Basis4D(wa[..], wb[..], wc[..], wd[..]);
    CopyColumnsInto(out, wa, wb, wc, wd);
    LookAt4DFromBasis(old(position[..]), old(target[..]), old(up[..]), old(over[..]), kd, ka, kb, f);
  }
}
