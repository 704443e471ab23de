/**
 * cube.js: the solid 3D cube. Six faces of four vertices each, one colour per
 * face repeated over its four vertices, two triangles per face in the index
 * buffer, and the same per-frame spin as the hypercube.
 */
module SolidCube {
  import opened GlMatrix
  import opened Shared

  /** Coordinates per vertex in the vertex buffer. */
  const VertexItemSize: nat := 3
  /** Components per colour (RGBA) in the colour buffer. */
  const ColorItemSize: nat := 4
  /** The number of faces. */
  const FaceCount: nat := 6
  /** Vertices per face; faces do not share vertices. */
  const FaceVertexCount: nat := 4
  /** The number of vertices, 4 per face. */
  const VertexCount: nat := 24
  /** Indices per face: two triangles. */
  const FaceIndexCount: nat := 6

  /** The vertex table, one row per vertex, in face order front, back, top, bottom, right, left. */
  const VertexRows: seq<Vec3> := [
    // Front face
    [-1.0, -1.0,  1.0],
    [ 1.0, -1.0,  1.0],
    [ 1.0,  1.0,  1.0],
    [-1.0,  1.0,  1.0],
    // Back face
    [-1.0, -1.0, -1.0],
    [-1.0,  1.0, -1.0],
    [ 1.0,  1.0, -1.0],
    [ 1.0, -1.0, -1.0],
    // Top face
    [-1.0,  1.0, -1.0],
    [-1.0,  1.0,  1.0],
    [ 1.0,  1.0,  1.0],
    [ 1.0,  1.0, -1.0],
    // Bottom face
    [-1.0, -1.0, -1.0],
    [ 1.0, -1.0, -1.0],
    [ 1.0, -1.0,  1.0],
    [-1.0, -1.0,  1.0],
    // Right face
    [ 1.0, -1.0, -1.0],
    [ 1.0,  1.0, -1.0],
    [ 1.0,  1.0,  1.0],
    [ 1.0, -1.0,  1.0],
    // Left face
    [-1.0, -1.0, -1.0],
    [-1.0, -1.0,  1.0],
    [-1.0,  1.0,  1.0],
    [-1.0,  1.0, -1.0]]

  /** The vertex buffer: the rows above, 72 floats. */
  const Vertices: seq<real> := Flatten(VertexRows)

  /** The axis (0 = x, 1 = y, 2 = z) that face f is perpendicular to. */
  function FaceAxis(f: nat): (axis: nat)
    requires f < FaceCount
    ensures axis < 3
  {
    [2, 2, 1, 1, 0, 0][f]
  }

  /** The side of the cube face f lies on along its axis: +1 or -1. */
  function FaceSign(f: nat): (sign: real)
    requires f < FaceCount
    ensures sign == 1.0 || sign == -1.0
  {
    if f % 2 == 0 then 1.0 else -1.0
  }

  /** Vertex a (0 to 3) of face f. */
  function FaceVertex(f: nat, a: nat): Vec3
    requires f < FaceCount && a < FaceVertexCount
  {
    VertexRows[4 * f + a]
  }

  /** Every coordinate of every vertex is +1 or -1. */
  lemma VertexRowsSigns()
    ensures |VertexRows| == VertexCount
    ensures forall i, j :: 0 <= i < VertexCount && 0 <= j < 3 ==> VertexRows[i][j] == 1.0 || VertexRows[i][j] == -1.0
  {
  }

  /**
   * The vertex buffer holds 24 items of three coordinates, each +1 or -1:
   * every vertex is a corner of the cube [-1, 1]^3.
   */
  lemma VertexBuffer()
    ensures |VertexRows| == VertexCount == FaceCount * FaceVertexCount
    ensures |Vertices| == VertexCount * VertexItemSize
    ensures forall k :: 0 <= k < |Vertices| ==> Vertices[k] == 1.0 || Vertices[k] == -1.0
  {
    FlattenLength(VertexRows, 3);
    VertexRowsSigns();
    FlattenSigns(VertexRows);
  }

  /** Coordinate j of vertex i sits at slot 3i + j of the vertex buffer. */
  lemma VertexSlot(i: nat, j: nat)
    requires i < VertexCount && j < VertexItemSize
    ensures 3 * i + j < |Vertices| && Vertices[3 * i + j] == VertexRows[i][j]
  {
    FlattenAt(VertexRows, 3, i, j);
  }

  /**
   * The four vertices of face f all lie on the face's side of the cube along
   * the face's axis: front z = +1, back z = -1, top y = +1, bottom y = -1,
   * right x = +1, left x = -1.
   */
  lemma FaceOnSide()
    ensures forall f, a :: 0 <= f < FaceCount && 0 <= a < FaceVertexCount ==> FaceVertex(f, a)[FaceAxis(f)] == FaceSign(f)
  {
  }

  /** The four vertices of a face are four different points, so they are the face's four corners. */
  lemma FaceCornersDistinct()
    ensures forall f, a, b :: 0 <= f < FaceCount && 0 <= a < b < FaceVertexCount ==>
      FaceVertex(f, a) != FaceVertex(f, b)
  {
  }

  // ---------------------------------------------------------------------------
  // Colours
  // ---------------------------------------------------------------------------

  /** One RGBA colour per face: white, red, green, blue, yellow, purple. */
  const FaceColors: seq<Vec4> := [
    Vec(1.0, 1.0, 1.0, 1.0),
    Vec(1.0, 0.0, 0.0, 1.0),
    Vec(0.0, 1.0, 0.0, 1.0),
    Vec(0.0, 0.0, 1.0, 1.0),
    Vec(1.0, 1.0, 0.0, 1.0),
    Vec(1.0, 0.0, 1.0, 1.0)]

  /** Slot k of a run of four-component items repeated four times per face: item k / 16, component k % 4. */
  lemma SlotOf(j: nat, i: nat, m: nat)
    requires i < 4 && m < 4
    ensures (16 * j + 4 * i + m) / 16 == j && (16 * j + 4 * i + m) % 4 == m
  {
  }

  /**
   * The colour-expansion loop of _initializeBuffers: each face colour is
   * appended four times, once per vertex of the face. Slot k holds component
   * k % 4 of face k / 16's colour, so vertex i gets the colour of face i / 4.
   */
  method ExpandColors(colors: seq<Vec4>) returns (generated: seq<real>)
    requires |colors| == FaceCount
    ensures |generated| == FaceCount * FaceVertexCount * ColorItemSize
    ensures forall k :: 0 <= k < |generated| ==> generated[k] == colors[k / 16][k % 4]
    ensures forall i, j :: 0 <= i < VertexCount && 0 <= j < ColorItemSize ==> generated[4 * i + j] == colors[i / 4][j]
  {
    generated := [];
    for j := 0 to 6
      invariant |generated| == 16 * j
      invariant forall k :: 0 <= k < |generated| ==> generated[k] == colors[k / 16][k % 4]
    {
      var c := colors[j];
      for i := 0 to 4
        invariant |generated| == 16 * j + 4 * i
        invariant forall k :: 0 <= k < |generated| ==> generated[k] == colors[k / 16][k % 4]
      {
        SlotOf(j, i, 0);
        SlotOf(j, i, 1);
        SlotOf(j, i, 2);
        SlotOf(j, i, 3);
        generated := generated + c;
      }
    }
    forall i, j | 0 <= i < VertexCount && 0 <= j < ColorItemSize
      ensures generated[4 * i + j] == colors[i / 4][j]
    {
      SlotOf(i / 4, i % 4, j);
      assert 4 * i + j == 16 * (i / 4) + 4 * (i % 4) + j;
    }
  }

  // ---------------------------------------------------------------------------
  // The index buffer
  // ---------------------------------------------------------------------------

  /** The index table, two triangles per face, one face per group. */
  const Indices: seq<nat> :=
    [ 0,  1,  2,  0,  2,  3] +
    [ 4,  5,  6,  4,  6,  7] +
    [ 8,  9, 10,  8, 10, 11] +
    [12, 13, 14, 12, 14, 15] +
    [16, 17, 18, 16, 18, 19] +
    [20, 21, 22, 20, 22, 23]

  /** The two triangles of face f: its corners (0, 1, 2) and (0, 2, 3), counted from vertex 4f. */
  function FaceIndices(f: nat): (indices: seq<nat>)
    ensures |indices| == FaceIndexCount
    ensures forall k :: 0 <= k < |indices| ==> indices[k] / 4 == f
  {
    [4 * f, 4 * f + 1, 4 * f + 2, 4 * f, 4 * f + 2, 4 * f + 3]
  }

  /** Block f of six entries of the index table is exactly the two triangles of face f. */
  lemma IndexBlocks()
    ensures |Indices| == FaceCount * FaceIndexCount
    ensures forall f :: 0 <= f < FaceCount ==> Indices[6 * f .. 6 * f + 6] == FaceIndices(f)
  {
    var g0, g1, g2 := [0, 1, 2, 0, 2, 3], [4, 5, 6, 4, 6, 7], [8, 9, 10, 8, 10, 11];
    var g3, g4, g5 := [12, 13, 14, 12, 14, 15], [16, 17, 18, 16, 18, 19], [20, 21, 22, 20, 22, 23];
    assert Indices == g0 + g1 + g2 + g3 + g4 + g5;
    forall f | 0 <= f < FaceCount
      ensures Indices[6 * f .. 6 * f + 6] == FaceIndices(f)
    {
      if f == 0 {
        assert Indices[0 .. 6] == g0;
      } else if f == 1 {
        assert Indices[6 .. 12] == g1;
      } else if f == 2 {
        assert Indices[12 .. 18] == g2;
      } else if f == 3 {
        assert Indices[18 .. 24] == g3;
      } else if f == 4 {
        assert Indices[24 .. 30] == g4;
      } else {
        assert Indices[30 .. 36] == g5;
      }
    }
  }

  /**
   * The index buffer has 36 entries (numItems, the count drawElements draws);
   * entry k points at a vertex of face k / 6, so every index is a vertex below
   * 24 and every triangle lies on a single face.
   */
  lemma IndexBuffer()
    ensures |Indices| == FaceCount * FaceIndexCount
    ensures forall k :: 0 <= k < |Indices| ==> Indices[k] < VertexCount && Indices[k] / 4 == k / 6
  {
    IndexBlocks();
    forall k | 0 <= k < |Indices|
      ensures Indices[k] < VertexCount && Indices[k] / 4 == k / 6
    {
      var f := k / 6;
      assert Indices[k] == Indices[6 * f .. 6 * f + 6][k - 6 * f];
      assert FaceIndices(f)[k - 6 * f] / 4 == f;
    }
  }

  // ---------------------------------------------------------------------------
  // The Cube object
  // ---------------------------------------------------------------------------

  /** The cube object: its spin angles and the colour buffer its constructor generates. */
  class Cube {
    var rotationX: real
    var rotationY: real
    var colors: seq<real>

    /** The successful path of the constructor: buffers built, both angles zero. */
    constructor()
      ensures rotationX == 0.0 && rotationY == 0.0
      ensures |colors| == VertexCount * ColorItemSize
      ensures forall i, j :: 0 <= i < VertexCount && 0 <= j < ColorItemSize ==> colors[4 * i + j] == FaceColors[i / 4][j]
    {
      var generated := ExpandColors(FaceColors);
      colors := generated;
      rotationX, rotationY := 0.0, 0.0;
    }

    /**
     * new Cube(gl): throws when the WebGL handle is missing, builds the buffers,
     * then throws when the shader program does not link. Whether the handle is
     * present and whether linking succeeds are inputs here.
     */
    static method Create(hasGl: bool, shadersLinked: bool) returns (r: Result<Cube>)
      ensures r.Failure? <==> InitOutcome(hasGl, shadersLinked).Some?
      ensures r.Failure? ==> InitOutcome(hasGl, shadersLinked) == Some(r.error)
      ensures r.Success? ==> (fresh(r.value) && r.value.rotationX == 0.0 && r.value.rotationY == 0.0)
      ensures r.Success? ==> |r.value.colors| == VertexCount * ColorItemSize
      ensures r.Success? ==> forall i, j :: 0 <= i < VertexCount && 0 <= j < ColorItemSize ==>
        r.value.colors[4 * i + j] == FaceColors[i / 4][j]
    {
      if !hasGl {
        return Failure(MissingWebGLHandle);
      }
      if !shadersLinked {
        return Failure(ShaderInitializationFailed);
      }
      var c := new Cube();
      return Success(c);
    }

    /** update(deltaSeconds): advances the spin; nothing else changes. */
    method Update(deltaSeconds: real)
      modifies this
      ensures Spin(rotationX, rotationY) == Advance(old(Spin(rotationX, rotationY)), deltaSeconds)
      ensures colors == old(colors)
    {
      rotationX := rotationX + deltaSeconds * PI;
      rotationY := rotationY + deltaSeconds * PI * 0.5;
    }
  }
}
