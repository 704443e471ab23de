# hyper: a Dafny model of the 4D geometry core

hyper draws two WebGL scenes: a solid 3D cube (`cube.js`) and a wireframe
"hypercube" (`hypercube.js`). The hypercube is projected from 4D to 3D by its
vertex shader. Both rest on a small 4D algebra (`math.js`), which extends
gl-matrix with:

- a generalised cross product of three 4-vectors (`vec4.cross4D`);
- six rotation-plane generators (`mat4.fromXY/YZ/ZX/XW/YW/ZWRotation`);
- a 4D look-at matrix (`mat4.lookAt4D`).

The model works over real numbers:

- A vector is a sequence of four reals.
- A matrix is sixteen reals in gl-matrix's column-major layout, with entry
  (row, col) at index `4 * col + row`.
- Angles enter as their cosine `c` and sine `s`.
- `vec4.normalize` is a positive factor `k` with `k * k * |v|^2 == 1`.

Modules:

- `glmatrix.dfy` (`GlMatrix`): the gl-matrix operations the core uses, stated
  by their contracts.
- `math4d.dfy` (`Math4D`): `math.js`. Each routine is a pure function. Each
  routine other than the three delegating generators (`fromXYRotation`,
  `fromYZRotation`, `fromZXRotation`) is also an `array<real>` method that
  writes into its `out` buffer, proved to leave that function's value in `out`.
- `camera.dfy` (`AppCamera`): the 4D half of the camera object that `app.js`
  builds. It includes the exact `lookAt4D` result for the app's camera
  constants.
- `hypercube.dfy` (`Hypercube`): the vertex, colour and edge tables, the loop
  that flattens the edges into the line index buffer, and the 4D perspective
  divide of the vertex shader. It also holds the `Cube` object: its
  constructor, `update`, and the camera fields `render` overwrites.
- `cube.dfy` (`SolidCube`): the face-structured vertex and index tables, the
  colour-expansion loop, and the `Cube` object.
- `shared.dfy` (`Shared`): what the two cubes have in common. This is the spin
  that `update` accumulates, the two ways a constructor can fail, and the
  flattening of one-row-per-vertex literals into a flat buffer.

What the hypercube tables are:

- They are not a tesseract. Vertices 1 and 14 are both (1, 1, 1, 1), and
  (-1, -1, -1, +1) is missing.
- Several edges join vertices that differ in two coordinates.
- The edge list is still 4-regular, as a tesseract's is.
- `render` gives the shader an identity 4D projection and the camera
  position (1, 1, 1, 1). So the shader's depth for an unrotated vertex is
  `w - 1`, and the eight vertices with `w = +1` are divided by zero.
- `rotation4D` is never changed from the identity.

The W-plane generators do not all turn the same way. `math.js:16-18` writes
`out[3] = sin`, so XW turns e0 towards e3. YW and ZW turn e3 towards e1 and
e2 instead (`XWRotationImages`, `YWRotationImages`, `ZWRotationImages`).

## Model

| member | source | states |
|---|---|---|
| GlMatrix.Normalize | math.js:47 | `vec4.normalize` gives a vector of unit length that is the positive multiple `k` of its input |
| GlMatrix.NormalizerUnique | math.js:47 | the normalising factor of a vector is unique, so the normalised vector is determined |
| GlMatrix.ZeroHasNoNormalizer | math.js:45-47 | the zero vector has no normalising factor, so the model's `LookAt4D` is not defined when target equals position |
| GlMatrix.FromColumns | math.js:62-80 | the matrix built from four vectors has them as columns 0 to 3 |
| GlMatrix.SetIdentity | math.js:15 | `mat4.identity(out)` rewrites all sixteen slots with the identity |
| GlMatrix.SubtractInto | math.js:46 | `vec4.subtract(out, a, b)` leaves a - b in `out` |
| GlMatrix.NormalizeInPlace | math.js:47 | `vec4.normalize(v, v)` in place leaves the normalised vector in `v` |
| Math4D.Cross4D | math.js:84-103 | `vec4.cross4D`: output i is the signed 3x3 determinant of U, V and W with coordinate i left out, built from the six 2x2 minors of V and W |
| Math4D.Cross4DOrthogonal | math.js:84-103 | the cross product is orthogonal to each of U, V and W |
| Math4D.Cross4DSwapNegates | math.js:89-101 | exchanging V and W negates all four outputs |
| Math4D.Cross4DDegenerate | math.js:89-101 | V equal to W, or a zero U, gives the zero vector |
| Math4D.Cross4DInto | math.js:84-103 | writing slot by slot into `out` leaves the cross product of the inputs' old values |
| Math4D.FromXYRotation | math.js:3-5 | `mat4.fromXYRotation`, which is gl-matrix's `fromZRotation` |
| Math4D.FromYZRotation | math.js:6-8 | `mat4.fromYZRotation`, which is gl-matrix's `fromXRotation` |
| Math4D.FromZXRotation | math.js:9-11 | `mat4.fromZXRotation`, which is gl-matrix's `fromYRotation` |
| Math4D.FromXWRotation | math.js:12-21 | `mat4.fromXWRotation`: the identity with cos at slots 0 and 15, sin at slot 3 and -sin at slot 12 |
| Math4D.FromYWRotation | math.js:22-31 | `mat4.fromYWRotation`: the identity with cos at slots 5 and 15, -sin at slot 7 and sin at slot 13 |
| Math4D.FromZWRotation | math.js:32-41 | `mat4.fromZWRotation`: the identity with cos at slots 10 and 15, -sin at slot 11 and sin at slot 14 |
| Math4D.PlaneRotation | math.js:12-41 | the reference rotation in plane (p, q): entry (row, col) as a cos/sin block in an identity |
| Math4D.WGeneratorsFromIdentity | math.js:12-41 | each W-plane generator is the identity with its four slots overwritten, and differs from it nowhere else |
| Math4D.FromXWRotationInto | math.js:12-21 | resetting `out` to the identity and writing slots 0, 3, 12, 15 leaves the XW generator |
| Math4D.FromYWRotationInto | math.js:22-31 | resetting `out` to the identity and writing slots 5, 7, 13, 15 leaves the YW generator |
| Math4D.FromZWRotationInto | math.js:32-41 | resetting `out` to the identity and writing slots 10, 11, 14, 15 leaves the ZW generator |
| Math4D.PlaneRotationTranspose | math.js:12-41 | transposing a plane rotation reverses its angle |
| Math4D.PlaneRotationSwap | math.js:12-41 | the rotation in plane (q, p) is the rotation in plane (p, q) by the opposite angle |
| Math4D.PlaneRotationZero | math.js:12-41 | the zero angle (c, s) = (1, 0) gives the identity |
| Math4D.XYRotationPlane | math.js:3-5 | `fromXYRotation`, which delegates to `fromZRotation`, is the rotation turning e0 towards e1 |
| Math4D.YZRotationPlane | math.js:6-8 | `fromYZRotation`, which delegates to `fromXRotation`, is the rotation turning e1 towards e2 |
| Math4D.ZXRotationPlane | math.js:9-11 | `fromZXRotation`, which delegates to `fromYRotation`, is the rotation turning e2 towards e0 |
| Math4D.XWRotationPlane | math.js:12-21 | `fromXWRotation` is the rotation turning e0 towards e3 |
| Math4D.YWRotationPlane | math.js:22-31 | `fromYWRotation` is the rotation turning e3 towards e1 |
| Math4D.ZWRotationPlane | math.js:32-41 | `fromZWRotation` is the rotation turning e3 towards e2 |
| Math4D.XYRotationTranspose | math.js:3-5 | the transpose of the XY generator is the XY generator for the opposite angle |
| Math4D.YZRotationTranspose | math.js:6-8 | the transpose of the YZ generator is the YZ generator for the opposite angle |
| Math4D.ZXRotationTranspose | math.js:9-11 | the transpose of the ZX generator is the ZX generator for the opposite angle |
| Math4D.XWRotationTranspose | math.js:12-21 | the transpose of the XW generator is the XW generator for the opposite angle |
| Math4D.YWRotationTranspose | math.js:22-31 | the transpose of the YW generator is the YW generator for the opposite angle |
| Math4D.ZWRotationTranspose | math.js:32-41 | the transpose of the ZW generator is the ZW generator for the opposite angle |
| Math4D.XYRotationOrthogonal | math.js:3-5 | with c² + s² = 1 the XY generator is orthogonal (its transpose times itself is the identity) |
| Math4D.YZRotationOrthogonal | math.js:6-8 | with c² + s² = 1 the YZ generator is orthogonal |
| Math4D.ZXRotationOrthogonal | math.js:9-11 | with c² + s² = 1 the ZX generator is orthogonal |
| Math4D.XWRotationOrthogonal | math.js:12-21 | with c² + s² = 1 the XW generator is orthogonal |
| Math4D.YWRotationOrthogonal | math.js:22-31 | with c² + s² = 1 the YW generator is orthogonal |
| Math4D.ZWRotationOrthogonal | math.js:32-41 | with c² + s² = 1 the ZW generator is orthogonal |
| Math4D.XYRotationInverse | math.js:3-5 | with c² + s² = 1, rotating by an angle and then by its opposite is the identity |
| Math4D.YZRotationInverse | math.js:6-8 | with c² + s² = 1, R(c, s) R(c, -s) is the identity |
| Math4D.ZXRotationInverse | math.js:9-11 | with c² + s² = 1, R(c, s) R(c, -s) is the identity |
| Math4D.XWRotationInverse | math.js:12-21 | with c² + s² = 1, R(c, s) R(c, -s) is the identity |
| Math4D.YWRotationInverse | math.js:22-31 | with c² + s² = 1, R(c, s) R(c, -s) is the identity |
| Math4D.ZWRotationInverse | math.js:32-41 | with c² + s² = 1, R(c, s) R(c, -s) is the identity |
| Math4D.XYRotationImages | math.js:3-5 | e0 goes to (c, s, 0, 0) and e1 to (-s, c, 0, 0); e2 and e3 are fixed |
| Math4D.YZRotationImages | math.js:6-8 | e1 goes to (0, c, s, 0) and e2 to (0, -s, c, 0); e0 and e3 are fixed |
| Math4D.ZXRotationImages | math.js:9-11 | e2 goes to (s, 0, c, 0) and e0 to (c, 0, -s, 0); e1 and e3 are fixed |
| Math4D.XWRotationImages | math.js:16-18 | e0 goes to (c, 0, 0, s) and e3 to (-s, 0, 0, c); e1 and e2 are fixed |
| Math4D.YWRotationImages | math.js:26-28 | e1 goes to (0, c, 0, -s) and e3 to (0, s, 0, c); e0 and e2 are fixed, the opposite sense to XW |
| Math4D.ZWRotationImages | math.js:36-38 | e2 goes to (0, 0, c, -s) and e3 to (0, 0, s, c); e0 and e1 are fixed, the opposite sense to XW |
| Math4D.LookAt4D | math.js:43-82 | `mat4.lookAt4D`: the matrix whose columns are the basis Wa, Wb, Wc, Wd computed from the inputs |
| Math4D.LookAt4DBasis | math.js:44-60 | Wd, Wa and Wb have unit length (Wc is left unnormalised) |
| Math4D.LookAt4DFromBasis | math.js:62-80 | the look-at matrix has Wa, Wb, Wc and Wd as columns 0, 1, 2 and 3 |
| Math4D.LookAt4DColumns | math.js:45-47 | column 3 is the positive multiple of target - position with unit length; columns 0, 1 and 3 have unit length |
| Math4D.LookAt4DOrthogonalColumns | math.js:43-82 | the four columns of the look-at matrix are pairwise orthogonal |
| Math4D.LookAt4DTemporaries | math.js:44-60 | the subtract, cross4D and in-place normalize steps leave the basis Wa, Wb, Wc, Wd in fresh temporaries |
| Math4D.CopyColumn | math.js:62-65 | copying one temporary into column `col` sets its four slots and keeps the other twelve |
| Math4D.CopyColumnsInto | math.js:62-80 | the sixteen copies leave the matrix whose columns are wa, wb, wc and wd |
| Math4D.LookAt4DInto | math.js:43-82 | `lookAt4D` overwrites all sixteen slots of `out` with the look-at matrix of the inputs |
| Shared.Advance | hypercube.js:18-21 | `update(deltaSeconds)` of either cube (the same arithmetic is at cube.js:17-20): X grows by deltaSeconds·PI and Y by deltaSeconds·PI·0.5 |
| Shared.InitOutcome | hypercube.js:3-10 | construction fails exactly when the WebGL handle is missing (checked first) or the shader program does not link |
| Shared.AdvanceAdditive | hypercube.js:18-21 | two updates by d1 and d2 equal one update by d1 + d2 |
| Shared.AdvanceZero | hypercube.js:18-21 | an update by zero seconds changes nothing |
| Shared.AdvanceRates | cube.js:17-20 | the X angle moves twice as far as the Y angle; one second adds PI to X and PI / 2 to Y |
| AppCamera.ViewDirection | math.js:45-47 | for the app camera, target - position = (-4, 0, 0, 0) normalises with factor 1/4 to Wd = -e0 |
| AppCamera.ViewAxisA | math.js:50-52 | for the app camera, Wa = e3, already of unit length |
| AppCamera.ViewAxisB | math.js:54-56 | for the app camera, Wb = -e1, already of unit length |
| AppCamera.ViewAxisC | math.js:59-60 | for the app camera, Wc = -e2 |
| AppCamera.AppCameraScales | app.js:33-37 | the app camera's vectors meet every normalisation `lookAt4D` performs |
| AppCamera.AppCameraBasis | app.js:33-37 | the app camera's basis is Wa = e3, Wb = -e1, Wc = -e2, Wd = -e0 |
| AppCamera.AppCameraView4D | app.js:33-37 | `lookAt4D` on the app camera gives [0,0,0,1, 0,-1,0,0, 0,0,-1,0, -1,0,0,0] |
| AppCamera.AppViewOrthogonal | app.js:37 | the app camera's view4D is orthogonal, although Wc is never normalised |
| AppCamera.Camera.constructor | app.js:13-37 | the camera starts with the app's 4D position, target, up and over vectors, their view4D, and no 4D projection |
| Hypercube.VertexRows | hypercube.js:55-74 | the sixteen vertex rows of the hypercube's vertex buffer, in the source's order |
| Hypercube.ColorRows | hypercube.js:80-99 | the sixteen RGBA rows of the colour buffer, in the source's order |
| Hypercube.Edges | hypercube.js:105-143 | the 32 edges of the line list, in the source's order |
| Hypercube.VertexRowsSigns | hypercube.js:55-74 | sixteen vertex rows, every coordinate +1 or -1 |
| Hypercube.VertexBuffer | hypercube.js:55-78 | the vertex buffer holds 16 items of itemSize 4 (64 floats), each +1 or -1 |
| Hypercube.VertexSlot | hypercube.js:55-78 | coordinate j of vertex i is at slot 4i + j of the vertex buffer |
| Hypercube.VertexTableDefects | hypercube.js:55-74 | vertices 1 and 14 are both (1, 1, 1, 1), and no vertex is (-1, -1, -1, +1) |
| Hypercube.ColorBuffer | hypercube.js:80-103 | one RGBA colour per vertex (64 floats), alpha 1 throughout, red exactly for w = -1 and green for w = +1 |
| Hypercube.ColorSlot | hypercube.js:80-103 | component j of the colour of vertex i is at slot 4i + j of the colour buffer |
| Hypercube.FlattenEdges | hypercube.js:144-149 | the index buffer the edge loop builds: two indices per edge, first end then second |
| Hypercube.FlattenEdgesAt | hypercube.js:144-149 | slots 2i and 2i + 1 of the flattened edge list hold the two ends of edge i |
| Hypercube.BuildIndices | hypercube.js:144-149 | the index loop fills an array of twice the edge count with the flattened edge list |
| Hypercube.EdgesInRange | hypercube.js:105-143 | 32 edges, each joining two different vertices among the sixteen |
| Hypercube.IndexBufferInRange | hypercube.js:144-153 | the index buffer has 64 entries (numItems), each below 16 |
| Hypercube.EdgesFourRegular | hypercube.js:105-143 | every vertex 0 to 15 is an end of exactly four edges, and no other number occurs |
| Hypercube.Divide | hypercube.js:213-218 | the divide has no defined point exactly when the depth is zero |
| Hypercube.DivideMeaning | hypercube.js:213-218 | for a nonzero depth, each projected coordinate times the depth is t times its numerator |
| Hypercube.DivideScale | hypercube.js:213-218 | scaling depth and numerators by the same nonzero factor leaves the projected point unchanged |
| Hypercube.PerspectiveDivide | hypercube.js:212-218 | the projection is undefined exactly when v has a zero dot product with row 3 of the 4D projection |
| Hypercube.PerspectiveScaleInvariant | hypercube.js:212-218 | the projected point is unchanged when v is scaled by any nonzero factor |
| Hypercube.VertexShader | hypercube.js:209-221 | the colour passes through unchanged; the position is undefined exactly when the rotated, camera-relative vertex has zero depth |
| Hypercube.MulVecIdentity | hypercube.js:210 | the identity rotation leaves every vertex unchanged |
| Hypercube.PerspectiveDivideIdentity | hypercube.js:213-218 | under the identity 4D projection the depth is w and the numerators are x, y and z |
| Hypercube.RenderDepth | hypercube.js:209-218 | as rendered, a vertex with w = +1 has no defined position, and one with w = -1 lands at (t / 2)(1 - x, 1 - y, 1 - z) |
| Hypercube.RenderedWPlusVerticesSingular | hypercube.js:209-218 | of the sixteen vertices, exactly the eight with w = +1 are divided by zero |
| Hypercube.Cube.constructor | hypercube.js:12-15 | on success both angles are 0, rotation4D is the identity, and the index buffer is the flattened edge list |
| Hypercube.Cube.Create | hypercube.js:3-16 | construction fails, with the matching error, exactly as `InitOutcome` says; otherwise the new cube starts as the constructor leaves it |
| Hypercube.Cube.Update | hypercube.js:18-21 | the angles advance by d·PI and d·PI/2; rotation4D and the index buffer are unchanged |
| Hypercube.Cube.Render | hypercube.js:23-51 | the camera's position4D becomes (1, 1, 1, 1) and its projection4D the identity, its other fields are kept, and all index-buffer entries are drawn |
| SolidCube.VertexRows | cube.js:48-84 | the 24 vertex rows of the cube, four per face, in the source's order |
| SolidCube.FaceColors | cube.js:90-97 | the six face colours, white, red, green, blue, yellow and purple |
| SolidCube.Indices | cube.js:110-117 | the 36 triangle indices, six per face |
| SolidCube.VertexRowsSigns | cube.js:48-84 | 24 vertex rows, every coordinate +1 or -1 |
| SolidCube.VertexBuffer | cube.js:48-88 | the vertex buffer holds 24 items of itemSize 3 (72 floats), 4 per face, each +1 or -1 |
| SolidCube.VertexSlot | cube.js:48-88 | coordinate j of vertex i is at slot 3i + j of the vertex buffer |
| SolidCube.FaceOnSide | cube.js:49-83 | the four vertices of each face share the coordinate its comment names: front z = +1, back z = -1, top y = +1, bottom y = -1, right x = +1, left x = -1 |
| SolidCube.FaceCornersDistinct | cube.js:49-83 | the four vertices of each face are four different points |
| SolidCube.ExpandColors | cube.js:98-104 | the colour loop yields 96 floats; entry k is component k % 4 of face colour k / 16, so vertex i gets the colour of face i / 4 |
| SolidCube.FaceIndices | cube.js:111-116 | every index of face f's two triangles is a vertex of face f |
| SolidCube.IndexBlocks | cube.js:110-117 | block f of six indices is exactly 4f, 4f+1, 4f+2, 4f, 4f+2, 4f+3 |
| SolidCube.IndexBuffer | cube.js:110-121 | the index buffer has 36 entries (numItems), each below 24, and entry k points at a vertex of face k / 6 |
| SolidCube.Cube.constructor | cube.js:12-13 | on success both angles are 0 and the colour buffer holds each face's colour on its four vertices |
| SolidCube.Cube.Create | cube.js:3-15 | construction fails, with the matching error, exactly when the WebGL handle is missing or the shaders do not link (cube.js:140-141); otherwise both angles start at 0 |
| SolidCube.Cube.Update | cube.js:17-20 | the angles advance by d·PI and d·PI/2; the colour buffer is unchanged |

## Left out

- WebGL plumbing has no stateable behaviour beyond being called. This covers buffer creation and upload, shader compilation and linking, attribute and uniform binding, and `drawElements`. Whether the WebGL handle exists and whether the shader program links are inputs to `Create`.
- `app.js` is left out except its 4D camera constants. That covers the canvas, the animation loop, viewport resizing and the 3D camera.
- `shaders.js` is not part of this model. Nothing in the core uses it.
- The 3D half of both vertex shaders and both `render` methods is left out. It is gl-matrix work whose code is not shown: `mat4.rotateX`, `mat4.rotateY`, `mat4.multiply` into `modelView`, `uProjection * uModelView`, and `gl_Position`.
- Floating point is not modelled. Everything is over exact reals, and `Math.PI` is its decimal expansion.
- `cos`, `sin`, `tan` and `sqrt` are not modelled. Angles enter as `c` and `s`, and the shader's `1 / tan(angle / 2)` enters as `t`.
- `vec4.normalize` on a zero vector is not modelled. gl-matrix leaves such a vector as it is; the model has no normalising factor for it (`GlMatrix.ZeroHasNoNormalizer`).
- gl-matrix's `fromZRotation`, `fromXRotation` and `fromYRotation` are written out as the standard right-handed rotations in gl-matrix's layout. Their code is not part of this model.
- Math4D.LookAt4DBasis: does not prove that Wc has unit length. That holds when Wd, Wa and Wb are orthonormal, but the proof needs the Gram identity for the 4D cross product. Unit length of Wc is proved for the app camera (`AppCamera.ViewAxisC`, `AppCamera.AppViewOrthogonal`).
- Math4D.Cross4DInto: requires `out` to differ from `U`. The routine reads `U` again after each write, so an aliased call would differ. `lookAt4D` always passes a fresh `out`.
- AppCamera.Camera.constructor: assigns the precomputed view matrix. `AppCamera.AppCameraView4D` proves that this matrix is what `lookAt4D` computes for the same inputs.
- Hypercube.Divide: an undefined result (division by zero) is `None`. On the GPU it gives infinities or NaN, whose rendering is not modelled.
- The "1 turn per second" comments in `update` are not modelled. The model follows the arithmetic, which is PI radians per second for X (`Shared.AdvanceRates`).
