/** The line segments `draw` (scripts/renderer.js) produces from a model's
    edge lists: consecutive indices of each list are joined, list by list. */
module Draw {
  import opened Algebra
  import opened Wrappers
  import opened Transforms
  import opened Scene

  // ---------------------------------------------------------------------------
  // Where a vertex is drawn
  // ---------------------------------------------------------------------------

  /** The vertex loop of `draw`: the perspective matrix, then `mPer` once more. */
  function ProjectVertex(m: Mat4, v: Vec4): Vec4 {
    Apply(MPer(), Apply(m, v))
  }

  /** The composite already ends in `mPer`, so the extra `mPer` of the vertex
      loop leaves every vertex where the composite put it. */
  lemma ProjectVertexOnce(f: Frame, prp: Vec3, c: Clip, dop: Vec3, v: Vec4)
    requires dop.z != 0.0 && ScaleDefined(c)
    ensures
      var m := PerspectiveOfFrame(f, prp, c, dop).value;
      ProjectVertex(m, v) == Apply(m, v)
  {
    var m := PerspectiveOfFrame(f, prp, c, dop).value;
    var k := Apply(PerspectiveScale(c).value, Apply(ShearToAxis(dop).value, Apply(RotateVrc(f), Apply(Translate(-prp.x, -prp.y, -prp.z), v))));
    PerspectiveStages(f, prp, c, dop, v);
    MPerTwiceOn(k);
  }

  /** The point handed to `drawLine` for a projected vertex q: the viewport
      matrix, then x and y divided by w. `None` where w = 0, where the source
      divides by zero. */
  function CanvasPoint(width: real, height: real, q: Vec4): (r: Option<(real, real)>)
    ensures r.Some? <==> q.w != 0.0
    ensures r.Some? ==> r.value == ((width / 2.0) * (q.x / q.w + 1.0), (height / 2.0) * (q.y / q.w + 1.0))
  {
    var s := Apply(Viewport(width, height), q);
    ViewportApply(width, height, q);
    if s.w == 0.0 then None
    else
      HalfOffsetDivide(width, q.x, q.w);
      HalfOffsetDivide(height, q.y, q.w);
      assert s.x == (width / 2.0) * (q.x + q.w) && s.y == (height / 2.0) * (q.y + q.w) && s.w == q.w;
      var x, y := s.x / s.w, s.y / s.w;
      assert x == (width / 2.0) * (q.x / q.w + 1.0);
      assert y == (height / 2.0) * (q.y / q.w + 1.0);
      Some((x, y))
  }

  lemma HalfOffsetDivide(size: real, a: real, w: real)
    requires w != 0.0
    ensures ((size / 2.0) * (a + w)) / w == (size / 2.0) * (a / w + 1.0)
  {
    var u, h := a / w, size / 2.0;
    assert u * w == a;
    assert (h * (u + 1.0)) * w == h * (a + w);
  }

  /** -w <= a <= w with w > 0 puts a / w in [-1, 1]. */
  lemma UnitRatio(a: real, w: real)
    requires w > 0.0 && -w <= a <= w
    ensures -1.0 <= a / w <= 1.0
  {
    assert (a / w) * w == a;
  }

  /** A point of the closed canonical volume in front of the eye (z < 0) is
      drawn inside the canvas [0, width] x [0, height]. */
  lemma InsideOnCanvas(width: real, height: real, p: Vec4)
    requires width >= 0.0 && height >= 0.0
    requires p.z < 0.0 && p.z <= p.x <= -p.z && p.z <= p.y <= -p.z
    ensures
      var r := CanvasPoint(width, height, Apply(MPer(), p));
      r.Some? && 0.0 <= r.value.0 <= width && 0.0 <= r.value.1 <= height
  {
    var q := Apply(MPer(), p);
    MPerApply(p);
    assert q.x == p.x && q.y == p.y && q.w == -p.z;
    UnitRatio(q.x, q.w);
    UnitRatio(q.y, q.w);
    HalfScaleInRange(width, q.x / q.w);
    HalfScaleInRange(height, q.y / q.w);
    var r := CanvasPoint(width, height, q);
    assert r.value.0 == (width / 2.0) * (q.x / q.w + 1.0);
  }

  // ---------------------------------------------------------------------------
  // Which segments are drawn
  // ---------------------------------------------------------------------------

  /** A line between the vertices with indices `from` and `to`. */
  datatype Segment = Segment(from: int, to: int)

  /** The segments of one edge list: e[l] to e[l + 1] for each l < |e| - 1. */
  function EdgeSegments(e: seq<int>): (r: seq<Segment>)
    ensures |r| == if |e| <= 1 then 0 else |e| - 1
    ensures forall l :: 0 <= l < |r| ==> r[l] == Segment(e[l], e[l + 1])
    decreases |e|
  {
    if |e| <= 1 then [] else [Segment(e[0], e[1])] + EdgeSegments(e[1..])
  }

  /** The number of segments of all lists: |e| - 1 for each list with at
      least two indices. */
  function SegmentCount(edges: seq<seq<int>>): nat
    decreases |edges|
  {
    if |edges| == 0 then 0
    else SegmentCount(edges[..|edges| - 1]) + (if |edges[|edges| - 1]| <= 1 then 0 else |edges[|edges| - 1]| - 1)
  }

  /** The segments of all lists, first list first. */
  function ModelSegments(edges: seq<seq<int>>): (r: seq<Segment>)
    ensures |r| == SegmentCount(edges)
    decreases |edges|
  {
    if |edges| == 0 then [] else ModelSegments(edges[..|edges| - 1]) + EdgeSegments(edges[|edges| - 1])
  }

  /** The two nested loops of `draw` over `model.edges` and over the
      positions l < edges.length - 1 of each list. */
  method EnumerateSegments(edges: seq<seq<int>>) returns (r: seq<Segment>)
    ensures r == ModelSegments(edges)
  {
    r := [];
    var k := 0;
    while k < |edges|
      invariant 0 <= k <= |edges|
      invariant r == ModelSegments(edges[..k])
    {
      var e := edges[k];
      var l := 0;
      ghost var before := r;
      while l < |e| - 1
        invariant 0 <= l <= |e| && (|e| >= 1 ==> l <= |e| - 1)
        invariant r == before + EdgeSegments(e)[..l]
      {
        EdgeSegmentsPrefix(e, l);
        r := r + [Segment(e[l], e[l + 1])];
        l := l + 1;
      }
      assert EdgeSegments(e)[..l] == EdgeSegments(e);
      ModelSegmentsSnoc(edges, k);
      k := k + 1;
    }
    assert edges[..|edges|] == edges;
  }

  /** One more step of the inner loop extends the prefix by one segment. */
  lemma EdgeSegmentsPrefix(e: seq<int>, l: int)
    requires 0 <= l < |e| - 1
    ensures EdgeSegments(e)[..l + 1] == EdgeSegments(e)[..l] + [Segment(e[l], e[l + 1])]
  {
    var r := EdgeSegments(e);
    assert r[l] == Segment(e[l], e[l + 1]);
    assert r[..l + 1] == r[..l] + [r[l]];
  }

  /** One more step of the outer loop appends the segments of the next list. */
  lemma ModelSegmentsSnoc(edges: seq<seq<int>>, k: int)
    requires 0 <= k < |edges|
    ensures ModelSegments(edges[..k + 1]) == ModelSegments(edges[..k]) + EdgeSegments(edges[k])
  {
    assert edges[..k + 1][..k] == edges[..k];
  }

  /** Segment i of the flattened list is segment i - (earlier count) of the list it came from. */
  lemma {:induction false} ModelSegmentsFrom(edges: seq<seq<int>>, i: int)
    requires 0 <= i < |ModelSegments(edges)|
    ensures exists k, l :: (0 <= k < |edges| && 0 <= l < |edges[k]| - 1 &&
      ModelSegments(edges)[i] == Segment(edges[k][l], edges[k][l + 1]))
    decreases |edges|
  {
    var front := edges[..|edges| - 1];
    var last := edges[|edges| - 1];
    if i < |ModelSegments(front)| {
      ModelSegmentsFrom(front, i);
      var k, l :| 0 <= k < |front| && 0 <= l < |front[k]| - 1 &&
        ModelSegments(front)[i] == Segment(front[k][l], front[k][l + 1]);
      assert front[k] == edges[k];
    } else {
      var l := i - |ModelSegments(front)|;
      assert ModelSegments(edges)[i] == EdgeSegments(last)[l];
      assert ModelSegments(edges)[i] == Segment(edges[|edges| - 1][l], edges[|edges| - 1][l + 1]);
    }
  }

  /** Conversely, every pair of consecutive indices of every list is drawn. */
  lemma {:induction false} ModelSegmentsTo(edges: seq<seq<int>>, k: int, l: int)
    requires 0 <= k < |edges| && 0 <= l < |edges[k]| - 1
    ensures Segment(edges[k][l], edges[k][l + 1]) in ModelSegments(edges)
    decreases |edges|
  {
    var front, last := edges[..|edges| - 1], edges[|edges| - 1];
    assert ModelSegments(edges) == ModelSegments(front) + EdgeSegments(last);
    if k < |edges| - 1 {
      assert front[k] == edges[k];
      ModelSegmentsTo(front, k, l);
    } else {
      assert EdgeSegments(last)[l] == Segment(edges[k][l], edges[k][l + 1]);
    }
  }

  /** When every index names a vertex, so does every segment end. */
  lemma SegmentsValid(edges: seq<seq<int>>, count: int)
    requires ValidEdges(edges, count)
    ensures forall s :: s in ModelSegments(edges) ==> 0 <= s.from < count && 0 <= s.to < count
  {
    forall s | s in ModelSegments(edges)
      ensures 0 <= s.from < count && 0 <= s.to < count
    {
      var i :| 0 <= i < |ModelSegments(edges)| && ModelSegments(edges)[i] == s;
      ModelSegmentsFrom(edges, i);
    }
  }

  /** Two vertices differ in exactly one of x, y, z: they are the ends of an
      edge of an axis-aligned box. */
  predicate OneAxisApart(a: Vec4, b: Vec4) {
    || (a.x != b.x && a.y == b.y && a.z == b.z)
    || (a.x == b.x && a.y != b.y && a.z == b.z)
    || (a.x == b.x && a.y == b.y && a.z != b.z)
  }

  /** The cube is drawn as its 12 box edges. */
  lemma CubeSegments(c: Vec3, width: real, height: real, depth: real)
    requires width != 0.0 && height != 0.0 && depth != 0.0
    ensures |ModelSegments(CUBE_EDGES)| == 12
    ensures var vs := CubeVertices(c, width, height, depth);
      forall s :: s in ModelSegments(CUBE_EDGES) ==> 0 <= s.from < 8 && 0 <= s.to < 8 && OneAxisApart(vs[s.from], vs[s.to])
  {
    var vs := CubeVertices(c, width, height, depth);
    var segs := [Segment(0, 1), Segment(1, 2), Segment(2, 3), Segment(3, 0),
                 Segment(4, 5), Segment(5, 6), Segment(6, 7), Segment(7, 4),
                 Segment(0, 4), Segment(1, 5), Segment(2, 6), Segment(3, 7)];
    CubeSegmentList();
    assert ModelSegments(CUBE_EDGES) == segs;
    forall s | s in segs
      ensures 0 <= s.from < 8 && 0 <= s.to < 8 && OneAxisApart(vs[s.from], vs[s.to])
    {
    }
  }

  lemma CubeSegmentList()
    ensures ModelSegments(CUBE_EDGES) ==
      [Segment(0, 1), Segment(1, 2), Segment(2, 3), Segment(3, 0),
       Segment(4, 5), Segment(5, 6), Segment(6, 7), Segment(7, 4),
       Segment(0, 4), Segment(1, 5), Segment(2, 6), Segment(3, 7)]
  {
    SixLists([0, 1, 2, 3, 0], [4, 5, 6, 7, 4], [0, 4], [1, 5], [2, 6], [3, 7]);
    RingSegments(0, 1, 2, 3);
    RingSegments(4, 5, 6, 7);
    PairSegment(0, 4);
    PairSegment(1, 5);
    PairSegment(2, 6);
    PairSegment(3, 7);
  }

  /** The segments of two lists of lists joined are those of each, in order. */
  lemma {:induction false} ModelSegmentsAppend(xs: seq<seq<int>>, ys: seq<seq<int>>)
    ensures ModelSegments(xs + ys) == ModelSegments(xs) + ModelSegments(ys)
    decreases |ys|
  {
    if |ys| == 0 {
      assert xs + ys == xs;
    } else {
      var zs, front, last := xs + ys, ys[..|ys| - 1], ys[|ys| - 1];
      ModelSegmentsAppend(xs, front);
      assert zs[..|zs| - 1] == xs + front;
      assert zs[|zs| - 1] == last;
      assert ModelSegments(zs) == ModelSegments(xs + front) + EdgeSegments(last);
      assert ModelSegments(ys) == ModelSegments(front) + EdgeSegments(last);
    }
  }

  lemma ModelSegmentsSingle(a: seq<int>)
    ensures ModelSegments([a]) == EdgeSegments(a)
  {
    assert [a][..0] == [];
  }

  /** The segments of six lists are those of each list, in order. */
  lemma SixLists(a: seq<int>, b: seq<int>, c: seq<int>, d: seq<int>, e: seq<int>, f: seq<int>)
    ensures ModelSegments([a, b, c, d, e, f]) ==
      EdgeSegments(a) + EdgeSegments(b) + EdgeSegments(c) + EdgeSegments(d) + EdgeSegments(e) + EdgeSegments(f)
  {
    ModelSegmentsSingle(a);
    ModelSegmentsSingle(b);
    ModelSegmentsSingle(c);
    ModelSegmentsSingle(d);
    ModelSegmentsSingle(e);
    ModelSegmentsSingle(f);
    ModelSegmentsAppend([a], [b]);
    assert [a] + [b] == [a, b];
    ModelSegmentsAppend([a, b], [c]);
    assert [a, b] + [c] == [a, b, c];
    ModelSegmentsAppend([a, b, c], [d]);
    assert [a, b, c] + [d] == [a, b, c, d];
    ModelSegmentsAppend([a, b, c, d], [e]);
    assert [a, b, c, d] + [e] == [a, b, c, d, e];
    ModelSegmentsAppend([a, b, c, d, e], [f]);
    assert [a, b, c, d, e] + [f] == [a, b, c, d, e, f];
  }

  /** A closed ring of four indices gives its four sides. */
  lemma RingSegments(a: int, b: int, c: int, d: int)
    ensures EdgeSegments([a, b, c, d, a]) == [Segment(a, b), Segment(b, c), Segment(c, d), Segment(d, a)]
  {
    var e := [a, b, c, d, a];
    var r := EdgeSegments(e);
    assert |r| == 4;
    assert r[0] == Segment(e[0], e[1]) && r[1] == Segment(e[1], e[2]);
    assert r[2] == Segment(e[2], e[3]) && r[3] == Segment(e[3], e[4]);
  }

  /** A list of two indices gives one segment. */
  lemma PairSegment(a: int, b: int)
    ensures EdgeSegments([a, b]) == [Segment(a, b)]
  {
    var r := EdgeSegments([a, b]);
    assert |r| == 1 && r[0] == Segment(a, b);
  }
}
