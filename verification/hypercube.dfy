/**
 * hypercube.js: a wireframe tesseract. Sixteen 4D vertices with one colour
 * each, 32 edges flattened into a line index buffer, a per-frame spin, and a
 * vertex shader that rotates each vertex in 4D and divides by its depth
 * along the fourth axis of the 4D projection.
 *
 * The tables are kept as the source has them, and they are not a tesseract:
 * vertex 1 repeats vertex 14, and (-1, -1, -1, +1) is missing. The edge list
 * alone is 4-regular, as a tesseract's is.
 */
module Hypercube {
  import opened GlMatrix
  import opened Shared
  import AppCamera

  /** Coordinates per vertex in the vertex buffer. */
  const VertexItemSize: nat := 4
  /** Components per colour (RGBA) in the colour buffer. */
  const ColorItemSize: nat := 4
  /** The number of vertices. */
  const VertexCount: nat := 16

  /** The vertex table, one row per vertex as the source lays it out. */
  const VertexRows: seq<Vec4> := [
    Vec(-1.0, -1.0, -1.0, -1.0),
    Vec( 1.0,  1.0,  1.0,  1.0),

    Vec( 1.0, -1.0, -1.0, -1.0),
    Vec( 1.0,  1.0, -1.0, -1.0),
    Vec(-1.0,  1.0, -1.0, -1.0),
    Vec(-1.0, -1.0,  1.0, -1.0),
    Vec( 1.0, -1.0,  1.0, -1.0),
    Vec( 1.0,  1.0,  1.0, -1.0),
    Vec(-1.0,  1.0,  1.0, -1.0),

    Vec( 1.0, -1.0, -1.0,  1.0),
    Vec( 1.0,  1.0, -1.0,  1.0),
    Vec(-1.0,  1.0, -1.0,  1.0),
    Vec(-1.0, -1.0,  1.0,  1.0),
    Vec( 1.0, -1.0,  1.0,  1.0),
    Vec( 1.0,  1.0,  1.0,  1.0),
    Vec(-1.0,  1.0,  1.0,  1.0)]

  /** The vertex buffer: the rows above, 64 floats. */
  const Vertices: seq<real> := Flatten(VertexRows)

  const Red: Vec4 := Vec(1.0, 0.0, 0.0, 1.0)
  const Green: Vec4 := Vec(0.0, 1.0, 0.0, 1.0)

  /** The colour table, one RGBA row per vertex. */
  const ColorRows: seq<Vec4> := [
    Red, Green,
    Red, Red, Red, Red, Red, Red, Red,
    Green, Green, Green, Green, Green, Green, Green]

  /** The colour buffer: the rows above, 64 floats. */
  const Colors: seq<real> := Flatten(ColorRows)

  /** An edge: the vertex numbers of its two ends, edge[0] and edge[1] in the source. */
  datatype Edge = Edge(first: nat, second: nat)

  /** The 32 edges, in the groups the source separates by blank lines. */
  const Edges: seq<Edge> :=
    [Edge(0, 2), Edge(0, 9), Edge(2, 3), Edge(2, 10), Edge(3, 4), Edge(3, 11), Edge(4, 0), Edge(4, 12)] +
    [Edge(0, 5), Edge(2, 6), Edge(4, 8), Edge(3, 7)] +
    [Edge(5, 6), Edge(5, 13), Edge(6, 7), Edge(6, 14), Edge(7, 8), Edge(7, 1), Edge(8, 5), Edge(8, 15)] +
    [Edge(9, 10), Edge(10, 11), Edge(11, 12), Edge(12, 9)] +
    [Edge(10, 14), Edge(11, 1), Edge(12, 15), Edge(9, 13)] +
    [Edge(13, 14), Edge(14, 1), Edge(1, 15), Edge(15, 13)]

  /** Vertex `i`. */
  function Vertex(i: nat): Vec4
    requires i < VertexCount
  {
    VertexRows[i]
  }

  /** The colour of vertex `i`. */
  function Color(i: nat): Vec4
    requires i < VertexCount
  {
    ColorRows[i]
  }

  /** Every coordinate of every vertex is +1 or -1. */
  lemma VertexRowsSigns()
    ensures |VertexRows| == VertexCount
    ensures forall i, j :: 0 <= i < VertexCount && 0 <= j < 4 ==> VertexRows[i][j] == 1.0 || VertexRows[i][j] == -1.0
  {
  }

  /**
   * The vertex buffer holds sixteen items of four coordinates, each +1 or -1:
   * every vertex is a corner of the cube [-1, 1]^4.
   */
  lemma VertexBuffer()
    ensures |Vertices| == VertexCount * VertexItemSize
    ensures forall k :: 0 <= k < |Vertices| ==> Vertices[k] == 1.0 || Vertices[k] == -1.0
  {
    FlattenLength(VertexRows, 4);
    VertexRowsSigns();
    FlattenSigns(VertexRows);
  }

  /** Coordinate j of vertex i sits at slot 4i + j of the vertex buffer. */
  lemma VertexSlot(i: nat, j: nat)
    requires i < VertexCount && j < VertexItemSize
    ensures 4 * i + j < |Vertices| && Vertices[4 * i + j] == Vertex(i)[j]
  {
    FlattenAt(VertexRows, 4, i, j);
  }

  /** Vertex 1 and vertex 14 are the same point, and no vertex is (-1, -1, -1, +1). */
  lemma VertexTableDefects()
    ensures Vertex(1) == Vertex(14) == Vec(1.0, 1.0, 1.0, 1.0)
    ensures forall i :: 0 <= i < VertexCount ==> Vertex(i) != Vec(-1.0, -1.0, -1.0, 1.0)
  {
    assert Vec(-1.0, -1.0, -1.0, 1.0) !in VertexRows;
  }

  /**
   * One opaque RGBA colour per vertex: red for the vertices with w = -1,
   * green for those with w = +1.
   */
  lemma ColorBuffer()
    ensures |Colors| == VertexCount * ColorItemSize
    ensures forall i :: 0 <= i < VertexCount ==> Color(i)[3] == 1.0
    ensures forall i :: 0 <= i < VertexCount ==> Color(i) == if Vertex(i)[3] == -1.0 then Red else Green
  {
    FlattenLength(ColorRows, 4);
  }

  /** Component j of the colour of vertex i sits at slot 4i + j of the colour buffer. */
  lemma ColorSlot(i: nat, j: nat)
    requires i < VertexCount && j < ColorItemSize
    ensures 4 * i + j < |Colors| && Colors[4 * i + j] == Color(i)[j]
  {
    FlattenAt(ColorRows, 4, i, j);
  }

  // ---------------------------------------------------------------------------
  // The index buffer
  // ---------------------------------------------------------------------------

  /** The edge list flattened into line indices: both ends of edge 0, then of edge 1, and so on. */
  function FlattenEdges(edges: seq<Edge>): (indices: seq<nat>)
    ensures |indices| == 2 * |edges|
  {
    if |edges| == 0 then [] else [edges[0].first, edges[0].second] + FlattenEdges(edges[1..])
  }

  /** Slots 2i and 2i + 1 of the flattened list hold the two ends of edge i. */
  lemma {:induction false} FlattenEdgesAt(edges: seq<Edge>)
    ensures forall i :: 0 <= i < |edges| ==>
      FlattenEdges(edges)[2 * i] == edges[i].first && FlattenEdges(edges)[2 * i + 1] == edges[i].second
  {
    if |edges| > 0 {
      FlattenEdgesAt(edges[1..]);
      forall i | 1 <= i < |edges|
        ensures FlattenEdges(edges)[2 * i] == edges[i].first && FlattenEdges(edges)[2 * i + 1] == edges[i].second
      {
        assert FlattenEdges(edges)[2 * i] == FlattenEdges(edges[1..])[2 * (i - 1)];
        assert FlattenEdges(edges)[2 * i + 1] == FlattenEdges(edges[1..])[2 * (i - 1) + 1];
      }
    }
  }

  /**
   * The loop of _initializeBuffers: an array of twice as many slots as there
   * are edges, filled pair by pair. The result is the flattened edge list.
   */
  method BuildIndices(edges: seq<Edge>) returns (indices: seq<nat>)
    ensures indices == FlattenEdges(edges)
  {
    var a := new nat[2 * |edges|];
    for i := 0 to |edges|
      invariant forall k :: 0 <= k < i ==> a[2 * k] == edges[k].first && a[2 * k + 1] == edges[k].second
    {
      a[2 * i] := edges[i].first;
      a[2 * i + 1] := edges[i].second;
    }
    indices := a[..];
    FlattenEdgesAt(edges);
    forall j | 0 <= j < |indices|
      ensures indices[j] == FlattenEdges(edges)[j]
    {
      var k := j / 2;
      assert a[2 * k] == edges[k].first && a[2 * k + 1] == edges[k].second;
      assert j == 2 * k || j == 2 * k + 1;
    }
  }

  /** Every edge joins two different vertices among the sixteen. */
  lemma EdgesInRange()
    ensures |Edges| == 32
    ensures forall i :: 0 <= i < |Edges| ==>
      Edges[i].first < VertexCount && Edges[i].second < VertexCount && Edges[i].first != Edges[i].second
  {
  }

  /** If every edge end is below n, so is every index of the flattened list. */
  lemma FlattenEdgesBelow(edges: seq<Edge>, n: nat)
    requires forall i :: 0 <= i < |edges| ==> edges[i].first < n && edges[i].second < n
    ensures forall k :: 0 <= k < |FlattenEdges(edges)| ==> FlattenEdges(edges)[k] < n
  {
    FlattenEdgesAt(edges);
    forall k | 0 <= k < |FlattenEdges(edges)|
      ensures FlattenEdges(edges)[k] < n
    {
      assert k == 2 * (k / 2) || k == 2 * (k / 2) + 1;
    }
  }

  /**
   * The index buffer has 64 entries (numItems, the count drawElements draws),
   * each a vertex number below 16, which a 16-bit unsigned index holds.
   */
  lemma IndexBufferInRange()
    ensures |FlattenEdges(Edges)| == 64
    ensures forall k :: 0 <= k < 64 ==> FlattenEdges(Edges)[k] < VertexCount
  {
    EdgesInRange();
    FlattenEdgesBelow(Edges, VertexCount);
  }

  /** 1 when vertex a is vertex v, else 0. */
  function Hit(a: nat, v: nat): nat
  {
    if a == v then 1 else 0
  }

  /** How many edge ends are vertex `v`. */
  function Degree(edges: seq<Edge>, v: nat): nat
  {
    if |edges| == 0 then 0 else Hit(edges[0].first, v) + Hit(edges[0].second, v) + Degree(edges[1..], v)
  }

  lemma {:induction false} DegreeConcat(a: seq<Edge>, b: seq<Edge>, v: nat)
    ensures Degree(a + b, v) == Degree(a, v) + Degree(b, v)
  {
    if |a| == 0 {
      assert a + b == b;
    } else {
      assert (a + b)[1..] == a[1..] + b;
      DegreeConcat(a[1..], b, v);
    }
  }

  /** The degree contributed by a run of four edges, edge by edge. */
  lemma DegreeOfFour(a0: nat, b0: nat, a1: nat, b1: nat, a2: nat, b2: nat, a3: nat, b3: nat, v: nat)
    ensures Degree([Edge(a0, b0), Edge(a1, b1), Edge(a2, b2), Edge(a3, b3)], v)
         == Hit(a0, v) + Hit(b0, v) + Hit(a1, v) + Hit(b1, v) + Hit(a2, v) + Hit(b2, v) + Hit(a3, v) + Hit(b3, v)
  {
    var e0, e1, e2, e3 := Edge(a0, b0), Edge(a1, b1), Edge(a2, b2), Edge(a3, b3);
    assert [e3][1..] == [];
    assert Degree([e3], v) == Hit(a3, v) + Hit(b3, v);
    assert [e2, e3][1..] == [e3];
    assert Degree([e2, e3], v) == Hit(a2, v) + Hit(b2, v) + Degree([e3], v);
    assert [e1, e2, e3][1..] == [e2, e3];
    assert Degree([e1, e2, e3], v) == Hit(a1, v) + Hit(b1, v) + Degree([e2, e3], v);
    assert [e0, e1, e2, e3][1..] == [e1, e2, e3];
  }

  /** The degree contributed by a run of eight edges, edge by edge. */
  lemma DegreeOfEight(a0: nat, b0: nat, a1: nat, b1: nat, a2: nat, b2: nat, a3: nat, b3: nat,
                      a4: nat, b4: nat, a5: nat, b5: nat, a6: nat, b6: nat, a7: nat, b7: nat, v: nat)
    ensures Degree([Edge(a0, b0), Edge(a1, b1), Edge(a2, b2), Edge(a3, b3),
                    Edge(a4, b4), Edge(a5, b5), Edge(a6, b6), Edge(a7, b7)], v)
         == Hit(a0, v) + Hit(b0, v) + Hit(a1, v) + Hit(b1, v) + Hit(a2, v) + Hit(b2, v) + Hit(a3, v) + Hit(b3, v) +
            Hit(a4, v) + Hit(b4, v) + Hit(a5, v) + Hit(b5, v) + Hit(a6, v) + Hit(b6, v) + Hit(a7, v) + Hit(b7, v)
  {
    var lo := [Edge(a0, b0), Edge(a1, b1), Edge(a2, b2), Edge(a3, b3)];
    var hi := [Edge(a4, b4), Edge(a5, b5), Edge(a6, b6), Edge(a7, b7)];
    assert [Edge(a0, b0), Edge(a1, b1), Edge(a2, b2), Edge(a3, b3),
            Edge(a4, b4), Edge(a5, b5), Edge(a6, b6), Edge(a7, b7)] == lo + hi;
    DegreeConcat(lo, hi, v);
    DegreeOfFour(a0, b0, a1, b1, a2, b2, a3, b3, v);
    DegreeOfFour(a4, b4, a5, b5, a6, b6, a7, b7, v);
  }

  /** The degree of v in the edge table is the number of the 64 edge ends that are v. */
  lemma DegreeAsHits(v: nat)
    ensures Degree(Edges, v) ==
      Hit(0, v) + Hit(2, v) + Hit(0, v) + Hit(9, v) + Hit(2, v) + Hit(3, v) + Hit(2, v) + Hit(10, v) +
      Hit(3, v) + Hit(4, v) + Hit(3, v) + Hit(11, v) + Hit(4, v) + Hit(0, v) + Hit(4, v) + Hit(12, v) +
      Hit(0, v) + Hit(5, v) + Hit(2, v) + Hit(6, v) + Hit(4, v) + Hit(8, v) + Hit(3, v) + Hit(7, v) +
      Hit(5, v) + Hit(6, v) + Hit(5, v) + Hit(13, v) + Hit(6, v) + Hit(7, v) + Hit(6, v) + Hit(14, v) +
      Hit(7, v) + Hit(8, v) + Hit(7, v) + Hit(1, v) + Hit(8, v) + Hit(5, v) + Hit(8, v) + Hit(15, v) +
      Hit(9, v) + Hit(10, v) + Hit(10, v) + Hit(11, v) + Hit(11, v) + Hit(12, v) + Hit(12, v) + Hit(9, v) +
      Hit(10, v) + Hit(14, v) + Hit(11, v) + Hit(1, v) + Hit(12, v) + Hit(15, v) + Hit(9, v) + Hit(13, v) +
      Hit(13, v) + Hit(14, v) + Hit(14, v) + Hit(1, v) + Hit(1, v) + Hit(15, v) + Hit(15, v) + Hit(13, v)
  {
    var g0 := [Edge(0, 2), Edge(0, 9), Edge(2, 3), Edge(2, 10), Edge(3, 4), Edge(3, 11), Edge(4, 0), Edge(4, 12)];
    var g1 := [Edge(0, 5), Edge(2, 6), Edge(4, 8), Edge(3, 7)];
    var g2 := [Edge(5, 6), Edge(5, 13), Edge(6, 7), Edge(6, 14), Edge(7, 8), Edge(7, 1), Edge(8, 5), Edge(8, 15)];
    var g3 := [Edge(9, 10), Edge(10, 11), Edge(11, 12), Edge(12, 9)];
    var g4 := [Edge(10, 14), Edge(11, 1), Edge(12, 15), Edge(9, 13)];
    var g5 := [Edge(13, 14), Edge(14, 1), Edge(1, 15), Edge(15, 13)];
    assert Edges == g0 + g1 + g2 + g3 + g4 + g5;
    DegreeConcat(g0 + g1 + g2 + g3 + g4, g5, v);
    DegreeConcat(g0 + g1 + g2 + g3, g4, v);
    DegreeConcat(g0 + g1 + g2, g3, v);
    DegreeConcat(g0 + g1, g2, v);
    DegreeConcat(g0, g1, v);
    DegreeOfEight(0, 2, 0, 9, 2, 3, 2, 10, 3, 4, 3, 11, 4, 0, 4, 12, v);
    DegreeOfFour(0, 5, 2, 6, 4, 8, 3, 7, v);
    DegreeOfEight(5, 6, 5, 13, 6, 7, 6, 14, 7, 8, 7, 1, 8, 5, 8, 15, v);
    DegreeOfFour(9, 10, 10, 11, 11, 12, 12, 9, v);
    DegreeOfFour(10, 14, 11, 1, 12, 15, 9, 13, v);
    DegreeOfFour(13, 14, 14, 1, 1, 15, 15, 13, v);
  }

  /** Every vertex is an end of exactly four edges, as in a tesseract; no other vertex number occurs. */
  lemma EdgesFourRegular()
    ensures forall v :: 0 <= v < VertexCount ==> Degree(Edges, v) == 4
    ensures forall v :: v >= VertexCount ==> Degree(Edges, v) == 0
  {
    forall v | 0 <= v
      ensures Degree(Edges, v) == if v < VertexCount then 4 else 0
    {
      DegreeAsHits(v);
    }
  }

  // ---------------------------------------------------------------------------
  // The vertex shader
  // ---------------------------------------------------------------------------

  /** The uniforms render hands the shader, as far as the 4D projection uses them. */
  datatype Uniforms = Uniforms(angle: real, cameraPosition: Vec4, rotation: Mat4, projection4D: Mat4)

  /**
   * The divide of the shader: with s = t / depth the point is s times the
   * three numerators. The shader does not guard the division, so a zero depth
   * gives no defined point (None).
   */
  function Divide(t: real, depth: real, x: real, y: real, z: real): (r: Option<Vec3>)
    ensures r.None? <==> depth == 0.0
  {
    if depth == 0.0 then None else Some(Place(t / depth, x, y, z))
  }

  /** The point s (x, y, z). */
  function Place(s: real, x: real, y: real, z: real): Vec3
  {
    [s * x, s * y, s * z]
  }

  /** s' (x', y', z') = s (x, y, z) when s' k = s and each primed coordinate is k times its partner. */
  lemma PlaceRegroup(s: real, s': real, k: real, x: real, y: real, z: real, x': real, y': real, z': real)
    requires s' * k == s && x' == k * x && y' == k * y && z' == k * z
    ensures Place(s', x', y', z') == Place(s, x, y, z)
  {
    Regroup(s, s', k, x, x');
    Regroup(s, s', k, y, y');
    Regroup(s, s', k, z, z');
  }

  /**
   * What the divide computes: each coordinate times the depth is t times its
   * numerator, which fixes the point once the depth is nonzero.
   */
  lemma DivideMeaning(t: real, depth: real, x: real, y: real, z: real)
    requires depth != 0.0
    ensures var r := Divide(t, depth, x, y, z);
      r.Some? && r.value[0] * depth == t * x && r.value[1] * depth == t * y && r.value[2] * depth == t * z
  {
  }

  /** Scaling the depth by k scales the quotient t / depth by 1 / k. */
  lemma QuotientScale(t: real, d: real, k: real, d': real)
    requires k != 0.0 && d != 0.0 && d' == k * d
    ensures (t / d') * k == t / d
  {
  }

  /** s' x' = s x when s' k = s and x' = k x. */
  lemma Regroup(s: real, s': real, k: real, x: real, x': real)
    requires s' * k == s && x' == k * x
    ensures s' * x' == s * x
  {
    assert s' * x' == (s' * k) * x;
  }

  /** Multiplying the depth and the numerators by the same nonzero k changes nothing. */
  lemma DivideScale(t: real, depth: real, x: real, y: real, z: real, k: real, depth': real, x': real, y': real, z': real)
    requires k != 0.0
    requires depth' == k * depth && x' == k * x && y' == k * y && z' == k * z
    ensures Divide(t, depth', x', y', z') == Divide(t, depth, x, y, z)
  {
    if depth != 0.0 {
      assert depth' != 0.0;
      QuotientScale(t, depth, k, depth');
      PlaceRegroup(t / depth, t / depth', k, x, y, z, x', y', z');
    } else {
      assert depth' == 0.0;
    }
  }

  /**
   * The 4D perspective divide applied to v = rotated position minus camera
   * position, with t = 1 / tan(angle / 2): the depth is the dot product of v
   * with row 3 of the projection (its slots 3, 7, 11, 15) and the numerators
   * are its dot products with rows 0, 1 and 2.
   */
  function PerspectiveDivide(v: Vec4, projection4D: Mat4, t: real): (r: Option<Vec3>)
    ensures r.None? <==> Dot(v, Row(projection4D, 3)) == 0.0
  {
    Divide(t, Dot(v, Row(projection4D, 3)), Dot(v, Row(projection4D, 0)), Dot(v, Row(projection4D, 1)), Dot(v, Row(projection4D, 2)))
  }

  /** Scaling v by any nonzero factor leaves the projected point where it was. */
  lemma PerspectiveScaleInvariant(v: Vec4, projection4D: Mat4, t: real, k: real)
    requires k != 0.0
    ensures PerspectiveDivide(Scale(k, v), projection4D, t) == PerspectiveDivide(v, projection4D, t)
  {
    var r0, r1, r2, r3 := Row(projection4D, 0), Row(projection4D, 1), Row(projection4D, 2), Row(projection4D, 3);
    var w := Scale(k, v);
    DotScaleLeft(k, v, r0);
    DotScaleLeft(k, v, r1);
    DotScaleLeft(k, v, r2);
    DotScaleLeft(k, v, r3);
    DivideScale(t, Dot(v, r3), Dot(v, r0), Dot(v, r1), Dot(v, r2), k, Dot(w, r3), Dot(w, r0), Dot(w, r1), Dot(w, r2));
  }

  /** What the shader passes on: the projected 3D position and the colour. */
  datatype VertexOut = VertexOut(position3D: Option<Vec3>, color: Vec4)

  /**
   * The vertex shader up to position3D: rotate the vertex by the 4D rotation,
   * subtract the camera position, perspective-divide. `t` is 1 / tan(angle / 2),
   * which the GPU computes. The colour passes through unchanged.
   */
  function VertexShader(aPosition: Vec4, aColor: Vec4, u: Uniforms, t: real): (out: VertexOut)
    ensures out.color == aColor
    ensures out.position3D.None? <==> Dot(Sub(MulVec(u.rotation, aPosition), u.cameraPosition), Row(u.projection4D, 3)) == 0.0
  {
    var pos := MulVec(u.rotation, aPosition);
    var v := Sub(pos, u.cameraPosition);
    VertexOut(PerspectiveDivide(v, u.projection4D, t), aColor)
  }

  /** Row i of the identity is the i-th basis vector. */
  lemma IdentityRows()
    ensures Row(Identity(), 0) == Vec(1.0, 0.0, 0.0, 0.0)
    ensures Row(Identity(), 1) == Vec(0.0, 1.0, 0.0, 0.0)
    ensures Row(Identity(), 2) == Vec(0.0, 0.0, 1.0, 0.0)
    ensures Row(Identity(), 3) == Vec(0.0, 0.0, 0.0, 1.0)
  {
  }

  /** The identity rotation leaves every vertex where it is. */
  lemma MulVecIdentity(p: Vec4)
    ensures MulVec(Identity(), p) == p
  {
    IdentityRows();
    var q := MulVec(Identity(), p);
    assert q[0] == Dot(Vec(1.0, 0.0, 0.0, 0.0), p) == p[0];
    assert q[1] == Dot(Vec(0.0, 1.0, 0.0, 0.0), p) == p[1];
    assert q[2] == Dot(Vec(0.0, 0.0, 1.0, 0.0), p) == p[2];
    assert q[3] == Dot(Vec(0.0, 0.0, 0.0, 1.0), p) == p[3];
  }

  /** Under the identity projection the depth is w and the numerators are x, y and z. */
  lemma PerspectiveDivideIdentity(v: Vec4, t: real)
    ensures PerspectiveDivide(v, Identity(), t) == Divide(t, v[3], v[0], v[1], v[2])
  {
    IdentityRows();
    assert Dot(v, Row(Identity(), 0)) == Dot(v, Vec(1.0, 0.0, 0.0, 0.0)) == v[0];
    assert Dot(v, Row(Identity(), 1)) == Dot(v, Vec(0.0, 1.0, 0.0, 0.0)) == v[1];
    assert Dot(v, Row(Identity(), 2)) == Dot(v, Vec(0.0, 0.0, 1.0, 0.0)) == v[2];
    assert Dot(v, Row(Identity(), 3)) == Dot(v, Vec(0.0, 0.0, 0.0, 1.0)) == v[3];
  }

  /** The uniforms render sets: angle PI / 4, camera at (1, 1, 1, 1), identity 4D projection. */
  function RenderUniforms(rotation4D: Mat4): Uniforms
  {
    Uniforms(PI / 4.0, Vec(1.0, 1.0, 1.0, 1.0), rotation4D, Identity())
  }

  /**
   * With the uniforms render sets and the unrotated cube, the depth of a vertex
   * is w - 1: every vertex with w = +1 is divided by zero and has no defined
   * position, and every vertex with w = -1 lands at (t / 2) (1 - x, 1 - y, 1 - z).
   */
  lemma RenderDepth(p: Vec4, color: Vec4, t: real)
    ensures var out := VertexShader(p, color, RenderUniforms(Identity()), t);
      (p[3] == 1.0 ==> out.position3D.None?) &&
      (p[3] == -1.0 ==>
        (out.position3D.Some? &&
         -2.0 * out.position3D.value[0] == t * (p[0] - 1.0) &&
         -2.0 * out.position3D.value[1] == t * (p[1] - 1.0) &&
         -2.0 * out.position3D.value[2] == t * (p[2] - 1.0)))
  {
    MulVecIdentity(p);
    var v := Sub(p, Vec(1.0, 1.0, 1.0, 1.0));
    PerspectiveDivideIdentity(v, t);
    if p[3] == -1.0 {
      DivideMeaning(t, v[3], v[0], v[1], v[2]);
    }
  }

  /**
   * As rendered (identity 4D rotation, which nothing in the source changes),
   * the eight vertices with w = +1 are exactly the ones the shader divides by
   * zero; the other eight project to defined points.
   */
  lemma RenderedWPlusVerticesSingular(t: real)
    ensures forall i :: 0 <= i < VertexCount ==>
      (VertexShader(Vertex(i), Color(i), RenderUniforms(Identity()), t).position3D.None? <==> Vertex(i)[3] == 1.0)
  {
    VertexRowsSigns();
    forall i | 0 <= i < VertexCount
      ensures VertexShader(Vertex(i), Color(i), RenderUniforms(Identity()), t).position3D.None? <==> Vertex(i)[3] == 1.0
    {
      RenderDepth(Vertex(i), Color(i), t);
    }
  }

  // ---------------------------------------------------------------------------
  // The Cube object
  // ---------------------------------------------------------------------------

  /** The hypercube object: its spin angles, its 4D rotation and its index buffer. */
  class Cube {
    var rotationX: real
    var rotationY: real
    var rotation4D: Mat4
    var indices: seq<nat>

    /** The successful path of the constructor: buffers built, angles zero, rotation4D the identity. */
    constructor()
      ensures rotationX == 0.0 && rotationY == 0.0 && rotation4D == Identity()
      ensures indices == FlattenEdges(Edges)
    {
      var built := BuildIndices(Edges);
      indices := built;
      rotationX, rotationY := 0.0, 0.0;
      rotation4D := Identity();
    }

    /**
     * new Cube(gl): throws when the WebGL handle is missing, builds the buffers,
     * then throws when the shader program does not link. Whether the handle is
     * present and whether linking succeeds are inputs here.
     */
    static method Create(hasGl: bool, shadersLinked: bool) returns (r: Result<Cube>)
      ensures r.Failure? <==> InitOutcome(hasGl, shadersLinked).Some?
      ensures r.Failure? ==> InitOutcome(hasGl, shadersLinked) == Some(r.error)
      ensures r.Success? ==>
        (fresh(r.value) && r.value.rotationX == 0.0 && r.value.rotationY == 0.0 &&
        r.value.rotation4D == Identity() && r.value.indices == FlattenEdges(Edges))
    {
      if !hasGl {
        return Failure(MissingWebGLHandle);
      }
      if !shadersLinked {
        return Failure(ShaderInitializationFailed);
      }
      var c := new Cube();
      return Success(c);
    }

    /** update(deltaSeconds): advances the spin; nothing else changes. */
    method Update(deltaSeconds: real)
      modifies this
      ensures Spin(rotationX, rotationY) == Advance(old(Spin(rotationX, rotationY)), deltaSeconds)
      ensures rotation4D == old(rotation4D) && indices == old(indices)
    {
      rotationX := rotationX + deltaSeconds * PI;
      rotationY := rotationY + deltaSeconds * PI * 0.5;
    }

    /**
     * render(camera): overwrites the camera's 4D position with (1, 1, 1, 1)
     * and its 4D projection with the identity, hands those and the cube's 4D
     * rotation to the shader, and draws as many line indices as the index
     * buffer holds.
     */
    method Render(camera: AppCamera.Camera) returns (u: Uniforms, drawCount: nat)
      modifies camera
      ensures camera.position4D == Vec(1.0, 1.0, 1.0, 1.0) && camera.projection4D == Some(Identity())
      ensures camera.target4D == old(camera.target4D) && camera.up4D == old(camera.up4D)
      ensures camera.over4D == old(camera.over4D) && camera.view4D == old(camera.view4D)
      ensures u == RenderUniforms(rotation4D) && drawCount == |indices|
    {
      camera.position4D := Vec(1.0, 1.0, 1.0, 1.0);
      camera.projection4D := Some(Identity());
      u := Uniforms(PI / 4.0, camera.position4D, rotation4D, camera.projection4D.value);
      drawCount := |indices|;
    }
  }
}
