/** `processScene` of scripts/renderer.js for the `generic` and `cube` model
    types: scene descriptions become models whose vertices are homogeneous
    points and whose edges are lists of vertex indices. */
module Scene {
  import opened Algebra
  import Camera

  /** A model as described in the input scene. */
  datatype ModelSpec =
    | GenericSpec(vertices: seq<Vec3>, edges: seq<seq<int>>)
    | CubeSpec(center: Vec3, width: real, height: real, depth: real)

  datatype Kind = GenericKind | CubeKind

  /** A processed model: homogeneous vertices and index lists ("edges"),
      each list drawn as the polyline through its vertices. */
  datatype Model = Model(kind: Kind, vertices: seq<Vec4>, edges: seq<seq<int>>)

  datatype SceneSpec = SceneSpec(view: Camera.View, models: seq<ModelSpec>)
  datatype ProcessedScene = ProcessedScene(view: Camera.View, models: seq<Model>)

  /** Every index of every edge list names a vertex. */
  predicate ValidEdges(edges: seq<seq<int>>, count: int) {
    forall k, l :: 0 <= k < |edges| && 0 <= l < |edges[k]| ==> 0 <= edges[k][l] < count
  }

  predicate ValidModel(m: Model) {
    ValidEdges(m.edges, |m.vertices|)
  }

  // ---------------------------------------------------------------------------
  // Generic models
  // ---------------------------------------------------------------------------

  /** Each input vertex [x, y, z] becomes (x, y, z, 1); the edge lists are
      copied unchanged. */
  function GenericModel(vertices: seq<Vec3>, edges: seq<seq<int>>): (m: Model)
    ensures m.kind == GenericKind && m.edges == edges
    ensures |m.vertices| == |vertices|
    ensures forall j :: 0 <= j < |vertices| ==> m.vertices[j].w == 1.0 && Spatial(m.vertices[j]) == vertices[j]
  {
    Model(GenericKind, seq(|vertices|, j requires 0 <= j < |vertices| => Point(vertices[j])), edges)
  }

  /** Dividing the generic model's vertices by w gives back the input vertices. */
  lemma GenericRoundTrip(vertices: seq<Vec3>, edges: seq<seq<int>>, j: int)
    requires 0 <= j < |vertices|
    ensures GenericModel(vertices, edges).vertices[j].w != 0.0
    ensures Dehomogenize(GenericModel(vertices, edges).vertices[j]) == vertices[j]
  {
    DehomogenizePoint(vertices[j]);
  }

  /** The generic model is well formed exactly when its input edges are. */
  lemma GenericValidIff(vertices: seq<Vec3>, edges: seq<seq<int>>)
    ensures ValidModel(GenericModel(vertices, edges)) <==> ValidEdges(edges, |vertices|)
  {
  }

  // ---------------------------------------------------------------------------
  // Cubes
  // ---------------------------------------------------------------------------

  /** One face of the cube at depth z, in the source's order: top-left,
      top-right, bottom-right, bottom-left. */
  function CubeFace(c: Vec3, hw: real, hh: real, z: real): seq<Vec4> {
    [Vec4(c.x - hw, c.y + hh, z, 1.0),
     Vec4(c.x + hw, c.y + hh, z, 1.0),
     Vec4(c.x + hw, c.y - hh, z, 1.0),
     Vec4(c.x - hw, c.y - hh, z, 1.0)]
  }

  /** The x of vertex i: right of the centre for the second and third vertex of a face. */
  function CornerX(c: Vec3, hw: real, i: int): real {
    if i % 4 == 1 || i % 4 == 2 then c.x + hw else c.x - hw
  }

  /** The y of vertex i: above the centre for the first and second vertex of a face. */
  function CornerY(c: Vec3, hh: real, i: int): real {
    if i % 4 < 2 then c.y + hh else c.y - hh
  }

  /** The eight cube vertices: the face at z = cz + depth/2 (j = 1), then the
      face at z = cz - depth/2 (j = -1). */
  function CubeVertices(c: Vec3, width: real, height: real, depth: real): (vs: seq<Vec4>)
    ensures |vs| == 8
    ensures forall i :: 0 <= i < 8 ==> vs[i].w == 1.0
    ensures forall i :: 0 <= i < 8 ==> vs[i].x == CornerX(c, width / 2.0, i) && vs[i].y == CornerY(c, height / 2.0, i)
    ensures forall i :: 0 <= i < 4 ==> vs[i].z == c.z + depth / 2.0
    ensures forall i :: 4 <= i < 8 ==> vs[i].z == c.z - depth / 2.0
  {
    CubeFace(c, width / 2.0, height / 2.0, c.z + 1.0 * (depth / 2.0))
      + CubeFace(c, width / 2.0, height / 2.0, c.z + -1.0 * (depth / 2.0))
  }

  /** The vertex loop of the cube branch, `for (j = 1; j >= -1; j -= 2)`. */
  method GenerateCubeVertices(c: Vec3, width: real, height: real, depth: real) returns (vs: seq<Vec4>)
    ensures vs == CubeVertices(c, width, height, depth)
  {
    var hw, hh, hd := width / 2.0, height / 2.0, depth / 2.0;
    vs := [];
    var j := 1;
    while j >= -1
      invariant j == 1 || j == -1 || j == -3
      invariant j == 1 ==> vs == []
      invariant j == -1 ==> vs == CubeFace(c, hw, hh, c.z + 1.0 * hd)
      invariant j == -3 ==> vs == CubeFace(c, hw, hh, c.z + 1.0 * hd) + CubeFace(c, hw, hh, c.z + -1.0 * hd)
      decreases j + 3
    {
      var z := c.z + (j as real) * hd;
      assert z == if j == 1 then c.z + 1.0 * hd else c.z + -1.0 * hd;
      vs := vs + CubeFace(c, hw, hh, z);
      j := j - 2;
    }
  }

  /** Distinct indices name distinct corners when the cube has volume. */
  lemma CubeVerticesDistinct(c: Vec3, width: real, height: real, depth: real)
    requires width != 0.0 && height != 0.0 && depth != 0.0
    ensures var vs := CubeVertices(c, width, height, depth);
      forall i, j :: 0 <= i < j < 8 ==> vs[i] != vs[j]
  {
    var vs := CubeVertices(c, width, height, depth);
    forall i, j | 0 <= i < j < 8
      ensures vs[i] != vs[j]
    {
      if i < 4 && 4 <= j {
        assert vs[i].z != vs[j].z;
      } else {
        assert i % 4 != j % 4;
        assert vs[i].x != vs[j].x || vs[i].y != vs[j].y;
      }
    }
  }

  /** The edge lists of every cube: the front and back faces as closed rings,
      then the four edges joining them. */
  const CUBE_EDGES: seq<seq<int>> := [[0, 1, 2, 3, 0], [4, 5, 6, 7, 4], [0, 4], [1, 5], [2, 6], [3, 7]]

  /** Six lists over the eight vertices: two closed rings, then [i, i + 4]. */
  lemma CubeEdgesShape()
    ensures |CUBE_EDGES| == 6 && ValidEdges(CUBE_EDGES, 8)
    ensures CUBE_EDGES[0][0] == CUBE_EDGES[0][|CUBE_EDGES[0]| - 1]
    ensures CUBE_EDGES[1][0] == CUBE_EDGES[1][|CUBE_EDGES[1]| - 1]
    ensures forall k :: 2 <= k < 6 ==> CUBE_EDGES[k] == [k - 2, k + 2]
  {
  }

  function CubeModel(c: Vec3, width: real, height: real, depth: real): (m: Model)
    ensures m.kind == CubeKind && m.vertices == CubeVertices(c, width, height, depth) && m.edges == CUBE_EDGES
    ensures |m.vertices| == 8
    ensures ValidModel(m)
  {
    CubeEdgesShape();
    Model(CubeKind, CubeVertices(c, width, height, depth), CUBE_EDGES)
  }

  // ---------------------------------------------------------------------------
  // The scene
  // ---------------------------------------------------------------------------

  function ProcessModel(s: ModelSpec): (m: Model)
    ensures s.CubeSpec? ==> ValidModel(m)
    ensures s.GenericSpec? ==> (ValidModel(m) <==> ValidEdges(s.edges, |s.vertices|))
  {
    match s
    case GenericSpec(vertices, edges) => GenericModel(vertices, edges)
    case CubeSpec(center, width, height, depth) => CubeModel(center, width, height, depth)
  }

  /** `processScene`: the view is copied, and the models are processed one
      by one, in order. */
  method ProcessScene(s: SceneSpec) returns (r: ProcessedScene)
    ensures r.view == s.view
    ensures |r.models| == |s.models|
    ensures forall i :: 0 <= i < |s.models| ==> r.models[i] == ProcessModel(s.models[i])
  {
    var models: seq<Model> := [];
    var i := 0;
    while i < |s.models|
      invariant 0 <= i <= |s.models|
      invariant |models| == i
      invariant forall k :: 0 <= k < i ==> models[k] == ProcessModel(s.models[k])
    {
      models := models + [ProcessModel(s.models[i])];
      i := i + 1;
    }
    r := ProcessedScene(s.view, models);
  }
}
