# A verified model of a 3-D wireframe perspective renderer

The repository is a small browser renderer. It reads a scene made of a
camera ("view": projection reference point PRP, scene reference point SRP,
up vector VUP, and a view window `clip = [left, right, bottom, top, near, far]`)
and a list of models. It turns the models into homogeneous vertices and
lists of vertex indices. It then draws each model as a wireframe by
projecting its vertices through a perspective matrix and a viewport matrix.

This project models, in Dafny:

- the matrix builders of `scripts/transforms.js`: identity, translate,
  scale, xy-shear, `mPer` and viewport;
- the composite `mat4x4Perspective`: translate PRP to the origin, rotate into
  the view frame (u, v, n), shear the window centre CW onto the z-axis, scale
  to the canonical volume, and finally apply `mPer`;
- the 6-bit region code `outcodePerspective` of `scripts/renderer.js`, with the
  source's constants;
- the four camera commands `moveLeft`, `moveRight`, `moveForward` and
  `moveBackward`;
- the `generic` and `cube` branches of `processScene`;
- `draw`: the perspective matrix, the extra `mPer` and the viewport that take
  each vertex to the canvas, and the segments it draws: for each model, each
  edge list, and each pair of consecutive indices of that list.

Modelling choices:

- JavaScript numbers are exact `real`s.
- `Matrix.multiply([m0, ..., mk])` is the ordinary product m0·…·mk
  (`Algebra.MulChain`).
- A vector normalisation is a scale factor (`kn`, `ku`), because the square
  root lives in `scripts/matrix.js`, which is not part of this model.
- Where the source divides by zero (DOP.z = 0, or a zero scale divisor), the
  model returns `None`. JavaScript would produce Infinity or NaN entries there.

Modules, one per concern of the source:

- `Wrappers`: `Option`.
- `Algebra`: 3- and 4-vectors, 4x4 matrices, the product and chained products.
- `Transforms`: the contents of `scripts/transforms.js`.
- `Outcode`, `Camera`, `Scene` and `Draw`: the parts of `scripts/renderer.js`.

The source's window centre uses `clip[0]` (left) where `clip[2]` (bottom) is
meant; see "## Findings".

- The model keeps the code as written: `Transforms.WindowCenterAsWritten` and
  `Transforms.PerspectiveAsWritten`.
- It proves where that goes wrong.
- Next to it is the corrected composite, `Transforms.Perspective`, built on
  `Transforms.WindowCenter`. It sends the scene points on two opposite corners
  of the window (top-right and bottom-left) exactly onto the edges of the
  canonical frustum.

## Model

| member | source | states |
|---|---|---|
| Algebra.Sub | scripts/transforms.js:18 | `prp.subtract(srp)` is the vector that, added to SRP, gives PRP; it is zero exactly when PRP = SRP |
| Algebra.Cross | scripts/transforms.js:20-22 | the cross products used for u and v are orthogonal to both of their operands |
| Algebra.Dehomogenize | scripts/renderer.js:134 | the divide by w of `draw`: for w ≠ 0, multiplying the divided point (with w = 1) by w gives the homogeneous point back |
| Algebra.MulApply | scripts/transforms.js:50 | a product of two matrices acts on a point as the right factor followed by the left one |
| Algebra.MulChainApply | scripts/transforms.js:50 | `Matrix.multiply` of a list acts on a point as its factors do, the last factor first (proved by induction on the list) |
| Algebra.ChainOfFive | scripts/transforms.js:50-56 | the nested product `[mPer, [scale, shear, rotate, translate]]` applies translate first and mPer last |
| Transforms.Identity | scripts/transforms.js:85-90 | the matrix of `mat4x4Identity`; its action is stated by `IdentityApply` |
| Transforms.IdentityApply | scripts/transforms.js:85-90 | the identity leaves every homogeneous point unchanged |
| Transforms.Translate | scripts/transforms.js:93-98 | the matrix of `mat4x4Translate`; its action is stated by `TranslateApply` |
| Transforms.TranslateApply | scripts/transforms.js:93-98 | a translation adds w times its offset to x, y and z and keeps w: points (w = 1) move, directions (w = 0) stay |
| Transforms.Scale | scripts/transforms.js:101-106 | the matrix of `mat4x4Scale`; its action is stated by `ScaleApply` |
| Transforms.ScaleApply | scripts/transforms.js:101-106 | a scale multiplies x, y, z by their own factors and keeps w |
| Transforms.ShearXY | scripts/transforms.js:133-138 | the matrix of `mat4x4ShearXY`; its action is stated by `ShearApply` |
| Transforms.ShearApply | scripts/transforms.js:133-138 | the xy-shear sends x to x + shx·z and y to y + shy·z, keeping z and w |
| Transforms.MPer | scripts/transforms.js:60-67 | the matrix of `mat4x4MPer`, also the `mPer` literal at lines 51-55; its action is stated by `MPerApply` |
| Transforms.MPerApply | scripts/transforms.js:60-67 | `mPer` keeps x, y and z and puts -z into w |
| Transforms.Viewport | scripts/transforms.js:70-77 | the matrix of `mat4x4Viewport`; its action is stated by `ViewportApply` |
| Transforms.ViewportApply | scripts/transforms.js:70-77 | the viewport sends x to (width/2)(x + w) and y to (height/2)(y + w), keeping z and w |
| Transforms.IdentityNeutral | scripts/transforms.js:85-90 | the identity matrix is a two-sided unit of the matrix product |
| Transforms.TranslateCompose | scripts/transforms.js:93-98 | two translations compose into the translation by the sum of their offsets |
| Transforms.TranslateInverse | scripts/transforms.js:11-15 | translating by -PRP is undone by translating by +PRP, in both orders |
| Transforms.TranslatePoint | scripts/transforms.js:93-98 | a translation moves a point with w = 1 by its offset |
| Transforms.ScaleInverse | scripts/transforms.js:101-106 | a scale with non-zero factors is undone by the scale with the reciprocal factors |
| Transforms.ShearInverse | scripts/transforms.js:133-138 | the xy-shear by (shx, shy) is undone by the shear by (-shx, -shy) |
| Transforms.MPerIdempotent | scripts/transforms.js:60-67 | applying `mPer` twice is the same as applying it once, so the second `mPer` in `draw` changes nothing |
| Transforms.MPerProjectsOntoPlane | scripts/transforms.js:59-66 | after `mPer` and the divide by w, a point with z ≠ 0 lies on the plane z = -1 at (x/-z, y/-z) |
| Transforms.ViewportCorners | scripts/transforms.js:70-77 | the viewport sends the canonical corner (-1, -1) to the canvas origin and (1, 1) to (width, height) |
| Transforms.ViewportInCanvas | scripts/transforms.js:70-77 | every point with x, y in [-1, 1] lands inside the canvas [0, width] × [0, height] |
| Transforms.ViewFrame | scripts/transforms.js:18-22 | the axes n, u = vup × n and v = n × u are pairwise orthogonal, whatever the normalisation factors |
| Transforms.RotateVrc | scripts/transforms.js:32-36 | the matrix `rotateVRC` with rows u, v, n; its action is stated by `RotateApply` |
| Transforms.RotateApply | scripts/transforms.js:32-36 | the rotation gives a point its components along u, v and n and keeps w |
| Transforms.SrpOntoViewAxis | scripts/transforms.js:11-36 | after the translation and the rotation, SRP lies on the non-positive n-axis: x = y = 0 and z = -kn·\|prp - srp\|² |
| Transforms.WindowCenterAsWritten | scripts/transforms.js:24-27 | CW as the source computes it, with y = (left + top)/2; how it differs from the centre is stated by `WindowCentersAgree` |
| Transforms.WindowCenter | scripts/transforms.js:24-27 | the corrected CW lies midway between left and right and midway between bottom and top, on the near plane z = -near |
| Transforms.WindowCentersAgree | scripts/transforms.js:26 | the source's CW equals the true window centre exactly when left = bottom |
| Transforms.ShearToAxis | scripts/transforms.js:38-39 | `shearCW` exists exactly when DOP.z ≠ 0 and moves DOP onto the z-axis (0, 0, DOP.z) |
| Transforms.ShearToAxisLine | scripts/transforms.js:38-39 | every point of the line through the origin along DOP is moved onto the z-axis with its depth kept |
| Transforms.PerspectiveScale | scripts/transforms.js:41-48 | `scalePer` exists exactly when none of (right-left)·far, (top-bottom)·far, far is zero |
| Transforms.PerspectiveScaleApply | scripts/transforms.js:42-48 | `scalePer` multiplies x by 2·near/((right-left)·far), y by 2·near/((top-bottom)·far) and z by 1/far |
| Transforms.ScaleDepths | scripts/transforms.js:44 | the far plane z = -far goes to z = -1 and the near plane z = -near to z = -near/far |
| Transforms.ScaleWindowEdges | scripts/transforms.js:41-48 | the sheared half-window (±(right-left)/2, ±(top-bottom)/2, -near) goes onto the frustum edges x = y = ∓z |
| Transforms.PerspectiveOfFrame | scripts/transforms.js:50-56 | the composite exists exactly when DOP.z ≠ 0 and the scale is defined |
| Transforms.PerspectiveWith | scripts/transforms.js:4-57 | `mat4x4Perspective` for a given DOP exists exactly when DOP.z ≠ 0 and the scale is defined |
| Transforms.PerspectiveAsWritten | scripts/transforms.js:4-57 | `mat4x4Perspective` as written exists exactly when near ≠ 0 and the scale is defined |
| Transforms.Perspective | scripts/transforms.js:4-57 | the corrected composite exists under the same conditions as the one written |
| Transforms.PerspectiveStages | scripts/transforms.js:50-56 | the composite acts on a point as translate, rotate, shear, scale and `mPer` in that order |
| Transforms.PerspectivePrpToZero | scripts/transforms.js:11-15 | the composite sends PRP to the zero vector: the centre of projection becomes the eye at the origin |
| Transforms.StagesFixOrigin | scripts/transforms.js:32-48 | rotation, shear and scale fix the homogeneous origin; `mPer` sends it to the zero vector |
| Transforms.PerspectiveDepth | scripts/transforms.js:50-56 | a point's canonical depth is its component along n relative to PRP divided by far, and its w is minus that depth |
| Transforms.WindowCornersOntoFrustum | scripts/transforms.js:24-48 | with the true centre, the top-right window corner goes onto x = y = -z and the bottom-left onto x = y = z, both at depth -near/far |
| Transforms.WindowCornerAsWritten | scripts/transforms.js:24-48 | with the source's CW, the top-right window corner lands on the frustum edge y = -z if and only if left = bottom |
| Transforms.WindowCornerAsWrittenMisses | scripts/transforms.js:26 | for clip = [-2, 2, -1, 1, 1, 3], the source's shear and scale stages put that corner off the edge y = -z |
| Transforms.PerspectiveTopRightCorner | scripts/transforms.js:4-57 | the corrected `mat4x4Perspective` sends every scene point whose view-reference image is the window's top-right corner onto the frustum edge x = y = -z, at depth -near/far with w = near/far |
| Transforms.PerspectiveBottomLeftCorner | scripts/transforms.js:4-57 | the corrected `mat4x4Perspective` sends every scene point on the window's bottom-left corner onto the frustum edge x = y = z, at depth -near/far |
| Transforms.PerspectiveAsWrittenTopRightCorner | scripts/transforms.js:4-57 | `mat4x4Perspective` as written sends the scene point on the window's top-right corner onto the edge y = -z if and only if left = bottom |
| Outcode.OutcodePerspective | scripts/renderer.js:153-174 | the code lies in [0, 64); each bit is set exactly when its plane test holds, the second bit of a pair only when the first test fails; the code is 0 exactly when the point is in the ε-widened canonical volume |
| Outcode.OutcodePairsExclusive | scripts/renderer.js:155-172 | LEFT and RIGHT, BOTTOM and TOP, FAR and NEAR are never set together |
| Outcode.ClosedFrustumInside | scripts/renderer.js:153-174 | a point in the closed canonical volume, boundary included, gets code 0 |
| Outcode.OutsideHasBit | scripts/renderer.js:153-174 | a point more than FLOAT_EPSILON beyond any of the six planes gets a non-zero code |
| Outcode.NearPlaneRange | scripts/transforms.js:44 | for 0 < near ≤ far the canonical near plane -near/far lies in [-1, 0) |
| Outcode.WindowCornersInside | scripts/renderer.js:153-174 | with the true window centre, both window corners get code 0 for zmin = -near/far |
| Outcode.WindowCornerAsWrittenAbove | scripts/renderer.js:164-166 | with the source's CW and clip = [-2, 2, -1, 1, 1, 3], the top-right window corner gets the code TOP |
| Camera.Shift | scripts/renderer.js:79-108 | a camera move shifts PRP and SRP by the same vector and keeps SRP - PRP, VUP and the window |
| Camera.MoveLeft | scripts/renderer.js:79-84 | `moveLeft` is the shift by +1 along x |
| Camera.MoveRight | scripts/renderer.js:87-92 | `moveRight` is the shift by -1 along x |
| Camera.MoveBackward | scripts/renderer.js:95-100 | `moveBackward` is the shift by -1 along z |
| Camera.MoveForward | scripts/renderer.js:103-108 | `moveForward` is the shift by +1 along z |
| Camera.MovesUndo | scripts/renderer.js:79-108 | left undoes right and forward undoes backward, in both orders |
| Camera.ShiftKeepsFrame | scripts/renderer.js:79-108 | a move leaves the view frame (u, v, n) unchanged |
| Camera.ShiftKeepsPicture | scripts/renderer.js:81-82 | after a move by d, the new matrix sends q + d exactly where the old one sent q |
| Camera.MovesKeepPicture | scripts/renderer.js:80-106 | each of the four commands keeps the image of every point moved along with the camera |
| Scene.GenericModel | scripts/renderer.js:241-248 | a generic model keeps the edge lists and has one vertex per input vertex, with w = 1 and the same x, y, z |
| Scene.GenericRoundTrip | scripts/renderer.js:245-248 | dividing a generic vertex by its w gives back the input vertex |
| Scene.GenericValidIff | scripts/renderer.js:241-248 | a generic model is well formed exactly when its input edge lists index its vertices |
| Scene.CubeVertices | scripts/renderer.js:256-266 | the cube has 8 vertices with w = 1; vertices 0-3 lie at z = cz + depth/2 and 4-7 at z = cz - depth/2, each face ordered top-left, top-right, bottom-right, bottom-left |
| Scene.GenerateCubeVertices | scripts/renderer.js:261-266 | the `j = 1, -1` loop builds exactly those eight vertices |
| Scene.CubeVerticesDistinct | scripts/renderer.js:256-266 | a cube of non-zero width, height and depth has eight distinct vertices |
| Scene.CubeEdgesShape | scripts/renderer.js:268-274 | the cube's six edge lists are two closed rings and the four joins [i, i+4], all indices below 8 |
| Scene.CubeModel | scripts/renderer.js:253-274 | a cube model has exactly the eight cube vertices, the fixed edge lists, and every index names a vertex |
| Scene.ProcessModel | scripts/renderer.js:240-274 | a processed cube is always well formed; a processed generic model is well formed exactly when its input is |
| Scene.ProcessScene | scripts/renderer.js:228-323 | `processScene` copies the view and processes each model in order, one output model per input model |
| Draw.ProjectVertex | scripts/renderer.js:122-123 | the vertex loop of `draw`: the perspective matrix, then `mPer`; that the second `mPer` changes nothing is stated by `ProjectVertexOnce` |
| Draw.ProjectVertexOnce | scripts/renderer.js:122-123 | the second `mPer` that `draw` applies to every vertex leaves it where the perspective matrix put it |
| Draw.CanvasPoint | scripts/renderer.js:131-134 | a projected vertex reaches the canvas exactly when its w is non-zero, at ((width/2)(x/w + 1), (height/2)(y/w + 1)) |
| Draw.InsideOnCanvas | scripts/renderer.js:131-134 | a vertex inside the closed canonical volume and in front of the eye is drawn inside [0, width] × [0, height] |
| Draw.EdgeSegments | scripts/renderer.js:128-130 | an edge list of length n ≥ 2 gives n - 1 segments, segment l joining indices l and l + 1 |
| Draw.ModelSegments | scripts/renderer.js:126-130 | the number of segments of a model is the sum over its edge lists of max(length - 1, 0): a list with fewer than two indices draws nothing |
| Draw.EnumerateSegments | scripts/renderer.js:126-136 | the two nested loops of `draw` produce exactly the segments of every list, first list first |
| Draw.ModelSegmentsAppend | scripts/renderer.js:126-130 | the segments of two groups of edge lists joined are the segments of each group, in order |
| Draw.ModelSegmentsFrom | scripts/renderer.js:128-130 | every drawn segment joins two consecutive indices of one of the edge lists |
| Draw.ModelSegmentsTo | scripts/renderer.js:126-130 | every pair of consecutive indices of every edge list is among the drawn segments |
| Draw.SegmentsValid | scripts/renderer.js:129-130 | when every index names a vertex, both ends of every drawn segment name vertices |
| Draw.CubeSegments | scripts/renderer.js:268-274 | a cube is drawn as 12 segments, each joining two vertices that differ in exactly one coordinate |

## Left out

- Rotations: `mat4x4RotateX/Y/Z` (scripts/transforms.js:109-130) and the rotate commands of the renderer are not modelled. They need sine and cosine, which the reals of Dafny do not provide. For the record, `mat4x4RotateY` has a stray 1 in the translation column of its second row.
- The `cylinder` branch of `processScene` (scripts/renderer.js:275-305) needs sine, cosine and π. It also hard-codes a split at index 11 and multiplies the half-height by `j` inside the inner loop.
- The catch-all branch of `processScene` (scripts/renderer.js:307-317) is not modelled. It copies arbitrary JSON keys, which has no fixed data shape.
- The `model.matrix` field (scripts/renderer.js:319) is not modelled. `draw` never reads it.
- The `animation` copy of generic models (scripts/renderer.js:249-251) is not modelled. It is an opaque JSON value that the modelled code never reads.
- `clipLinePerspective` (scripts/renderer.js:180-190) is not modelled. It is a stub that always returns `null`, and it passes 3-vectors where the outcode expects 4-vectors.
- `draw` (scripts/renderer.js:111-137) is modelled in two parts: where one vertex is drawn, and which segments are drawn. The model does not build the list of line calls as a whole, and the canvas clearing is I/O.
- `drawLine`, the canvas, the DOM, key handling, the `this.draw()` redraw that ends each camera command (scripts/renderer.js:83, 91, 99, 107), animation (`animate`, `updateScene`, `updateTransforms`) and the constructor are not modelled. They are I/O.
- `scripts/matrix.js` is not part of this model. The vector operations and `Matrix.multiply` are taken to be the ordinary ones. `normalize` is the scale factors `kn` and `ku`. These are free parameters, so the lemmas hold for every value; only `SrpOntoViewAxis` needs `kn > 0`.
- Floating point is not modelled: rounding, Infinity and NaN are absent. A division by zero in the source gives `None` here.
- Transforms.ViewFrame: a degenerate view (PRP = SRP, or VUP parallel to PRP - SRP), where `normalize` divides by a zero length, is not an error here: the free factors kn and ku stand in for one over the length, so the model yields a defined but singular frame and matrix instead of the source's non-finite one.
- Transforms.PerspectiveWith: DOP is a parameter of the model. The source always passes DOP = CW (scripts/transforms.js:30), which is what `Perspective` and `PerspectiveAsWritten` do.
- Transforms.ViewFrame: states orthogonality of the axes but not unit length, because unit length depends on the square root in `normalize`.
- Scene.GenericModel: the source does not check that the edge indices name vertices. The model keeps that as the predicate `ValidEdges` rather than as an error path, and `GenericValidIff` relates the two.

## Findings

| source | as written | input that shows it | evidently intended | confidence | as-written member | corrected member |
|---|---|---|---|---|---|---|
| scripts/transforms.js:26 | `CW.y = (clip[0] + clip[3]) / 2`, the mean of left and top | clip = [-2, 2, -1, 1, 1, 3]: the top-right window corner is sheared and scaled to (1/3, 1/2, -1/3, 1). It lies above the plane y = -z = 1/3 and gets the outcode TOP instead of 0 | `CW.y = (clip[2] + clip[3]) / 2`, the mean of bottom and top, so that the window's centre is sheared onto the z-axis | not executed | Transforms.WindowCornerAsWritten | Transforms.WindowCornersOntoFrustum |

- `Transforms.WindowCornerAsWritten` proves that the corner lands on y = -z if and only if left = bottom. `Transforms.PerspectiveAsWrittenTopRightCorner` states the same for the whole composite.
- `Transforms.WindowCornerAsWrittenMisses` and `Outcode.WindowCornerAsWrittenAbove` give the concrete window above and its TOP code.
- `Transforms.WindowCornersOntoFrustum` proves that, with the corrected centre, both window corners land on the frustum edges. `Transforms.PerspectiveTopRightCorner` and `Transforms.PerspectiveBottomLeftCorner` state it for the whole corrected composite.
- `Outcode.WindowCornersInside` proves that they then get the code 0.

The error is invisible for the common symmetric windows where left = bottom,
such as [-1, 1, -1, 1, ...].
