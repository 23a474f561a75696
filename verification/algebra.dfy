/** Vectors and 4x4 matrices over the reals.

    The repository's `Matrix`/`Vector` classes (scripts/matrix.js) are not part
    of this model; they are assumed to implement the ordinary 3-vector
    operations and the ordinary 4x4 matrix product, which is what is defined
    here. `real` is an exact idealisation of JavaScript numbers. */
module Algebra {

  datatype Vec3 = Vec3(x: real, y: real, z: real)

  /** A homogeneous point (x, y, z, w). */
  datatype Vec4 = Vec4(x: real, y: real, z: real, w: real)

  /** A 4x4 matrix stored row by row. */
  datatype Mat4 = Mat4(r0: Vec4, r1: Vec4, r2: Vec4, r3: Vec4)

  function Add(a: Vec3, b: Vec3): Vec3 {
    Vec3(a.x + b.x, a.y + b.y, a.z + b.z)
  }

  /** `a.subtract(b)`: the vector that, added to `b`, gives back `a`. */
  function Sub(a: Vec3, b: Vec3): (d: Vec3)
    ensures Add(b, d) == a
    ensures d == Vec3(0.0, 0.0, 0.0) <==> a == b
  {
    Vec3(a.x - b.x, a.y - b.y, a.z - b.z)
  }

  function ScaleBy(k: real, a: Vec3): Vec3 {
    Vec3(k * a.x, k * a.y, k * a.z)
  }

  function Dot(a: Vec3, b: Vec3): real {
    a.x * b.x + a.y * b.y + a.z * b.z
  }

  /** The squared Euclidean length. */
  function NormSquared(a: Vec3): (r: real)
    ensures r >= 0.0
  {
    Square(a.x); Square(a.y); Square(a.z);
    Dot(a, a)
  }

  /** A square is never negative. */
  lemma Square(t: real)
    ensures t * t >= 0.0
  {
    if t < 0.0 {
      assert t * t > 0.0;
    }
  }

  /** `a.cross(b)`: the cross product, orthogonal to both of its operands. */
  function Cross(a: Vec3, b: Vec3): (c: Vec3)
    ensures Dot(c, a) == 0.0
    ensures Dot(c, b) == 0.0
  {
    Vec3(a.y * b.z - a.z * b.y, a.z * b.x - a.x * b.z, a.x * b.y - a.y * b.x)
  }

  /** The homogeneous point (p, 1), as built by `Vector4(x, y, z, 1)`. */
  function Point(p: Vec3): Vec4 {
    Vec4(p.x, p.y, p.z, 1.0)
  }

  /** The spatial part of a homogeneous vector (its w is dropped, not divided by). */
  function Spatial(p: Vec4): Vec3 {
    Vec3(p.x, p.y, p.z)
  }

  /** The perspective divide: the 3-D point a homogeneous point stands for.
      Scaling that point back by w gives the homogeneous point again. */
  function Dehomogenize(p: Vec4): (q: Vec3)
    requires p.w != 0.0
    ensures Scale4(p.w, Point(q)) == p
  {
    var q := Vec3(p.x / p.w, p.y / p.w, p.z / p.w);
    assert p.w * q.x == p.x && p.w * q.y == p.y && p.w * q.z == p.z;
    q
  }

  lemma DehomogenizePoint(q: Vec3)
    ensures Dehomogenize(Point(q)) == q
  {
  }

  function Dot4(a: Vec4, b: Vec4): real {
    a.x * b.x + a.y * b.y + a.z * b.z + a.w * b.w
  }

  /** The matrix applied to a column vector: `Matrix.multiply([m, p])`. */
  function Apply(m: Mat4, p: Vec4): Vec4 {
    Vec4(Dot4(m.r0, p), Dot4(m.r1, p), Dot4(m.r2, p), Dot4(m.r3, p))
  }

  function Add4(a: Vec4, b: Vec4): Vec4 {
    Vec4(a.x + b.x, a.y + b.y, a.z + b.z, a.w + b.w)
  }

  function Scale4(k: real, a: Vec4): Vec4 {
    Vec4(k * a.x, k * a.y, k * a.z, k * a.w)
  }

  /** The row vector r times the matrix b: the rows of b weighted by r's entries. */
  function RowTimes(r: Vec4, b: Mat4): Vec4 {
    Add4(Add4(Scale4(r.x, b.r0), Scale4(r.y, b.r1)), Add4(Scale4(r.z, b.r2), Scale4(r.w, b.r3)))
  }

  /** The ordinary matrix product a·b: entry (i, j) is the sum over k of
      a[i][k]·b[k][j], i.e. row i of the product is row i of a times b. */
  function Mul(a: Mat4, b: Mat4): Mat4 {
    Mat4(RowTimes(a.r0, b), RowTimes(a.r1, b), RowTimes(a.r2, b), RowTimes(a.r3, b))
  }

  lemma DotAdd(a: Vec4, b: Vec4, p: Vec4)
    ensures Dot4(Add4(a, b), p) == Dot4(a, p) + Dot4(b, p)
  {
    assert (a.x + b.x) * p.x == a.x * p.x + b.x * p.x;
    assert (a.y + b.y) * p.y == a.y * p.y + b.y * p.y;
    assert (a.z + b.z) * p.z == a.z * p.z + b.z * p.z;
    assert (a.w + b.w) * p.w == a.w * p.w + b.w * p.w;
  }

  lemma DotScale4(k: real, a: Vec4, p: Vec4)
    ensures Dot4(Scale4(k, a), p) == k * Dot4(a, p)
  {
    assert (k * a.x) * p.x == k * (a.x * p.x);
    assert (k * a.y) * p.y == k * (a.y * p.y);
    assert (k * a.z) * p.z == k * (a.z * p.z);
    assert (k * a.w) * p.w == k * (a.w * p.w);
  }

  /** Multiplying by a row vector and then by p is multiplying r by b·p. */
  lemma {:induction false} RowTimesDot(r: Vec4, b: Mat4, p: Vec4)
    ensures Dot4(RowTimes(r, b), p) == Dot4(r, Apply(b, p))
  {
    var s0, s1, s2, s3 := Scale4(r.x, b.r0), Scale4(r.y, b.r1), Scale4(r.z, b.r2), Scale4(r.w, b.r3);
    DotAdd(Add4(s0, s1), Add4(s2, s3), p);
    DotAdd(s0, s1, p);
    DotAdd(s2, s3, p);
    DotScale4(r.x, b.r0, p);
    DotScale4(r.y, b.r1, p);
    DotScale4(r.z, b.r2, p);
    DotScale4(r.w, b.r3, p);
  }

  /** Applying a product applies its right factor first: (a·b)p = a(b p). */
  lemma {:induction false} MulApply(a: Mat4, b: Mat4, p: Vec4)
    ensures Apply(Mul(a, b), p) == Apply(a, Apply(b, p))
  {
    RowTimesDot(a.r0, b, p);
    RowTimesDot(a.r1, b, p);
    RowTimesDot(a.r2, b, p);
    RowTimesDot(a.r3, b, p);
  }

  const E0 := Vec4(1.0, 0.0, 0.0, 0.0)
  const E1 := Vec4(0.0, 1.0, 0.0, 0.0)
  const E2 := Vec4(0.0, 0.0, 1.0, 0.0)
  const E3 := Vec4(0.0, 0.0, 0.0, 1.0)

  /** Applying a matrix to the j-th unit vector reads off its j-th column. */
  lemma ApplyUnit(m: Mat4)
    ensures Apply(m, E0) == Vec4(m.r0.x, m.r1.x, m.r2.x, m.r3.x)
    ensures Apply(m, E1) == Vec4(m.r0.y, m.r1.y, m.r2.y, m.r3.y)
    ensures Apply(m, E2) == Vec4(m.r0.z, m.r1.z, m.r2.z, m.r3.z)
    ensures Apply(m, E3) == Vec4(m.r0.w, m.r1.w, m.r2.w, m.r3.w)
  {
  }

  /** Two matrices that act alike on the four unit vectors are equal. */
  lemma {:induction false} MatrixExtensionality(a: Mat4, b: Mat4)
    requires Apply(a, E0) == Apply(b, E0) && Apply(a, E1) == Apply(b, E1)
    requires Apply(a, E2) == Apply(b, E2) && Apply(a, E3) == Apply(b, E3)
    ensures a == b
  {
    ApplyUnit(a);
    ApplyUnit(b);
  }

  /** A product is determined by what its factors do to the unit vectors. */
  lemma {:induction false} MulExtensionality(a: Mat4, b: Mat4, c: Mat4)
    requires Apply(a, Apply(b, E0)) == Apply(c, E0) && Apply(a, Apply(b, E1)) == Apply(c, E1)
    requires Apply(a, Apply(b, E2)) == Apply(c, E2) && Apply(a, Apply(b, E3)) == Apply(c, E3)
    ensures Mul(a, b) == c
  {
    MulApply(a, b, E0);
    MulApply(a, b, E1);
    MulApply(a, b, E2);
    MulApply(a, b, E3);
    MatrixExtensionality(Mul(a, b), c);
  }

  /** `Matrix.multiply([m0, m1, ..., mk])`: the product m0·m1·…·mk. */
  function MulChain(ms: seq<Mat4>): Mat4
    requires |ms| >= 1
    decreases |ms|
  {
    if |ms| == 1 then ms[0] else Mul(ms[0], MulChain(ms[1..]))
  }

  /** Applies the matrices one after another, the LAST one of the list first. */
  function ApplyAll(ms: seq<Mat4>, p: Vec4): Vec4
    decreases |ms|
  {
    if |ms| == 0 then p else Apply(ms[0], ApplyAll(ms[1..], p))
  }

  /** A chained product acts on a point as its factors do, rightmost first. */
  lemma {:induction false} MulChainApply(ms: seq<Mat4>, p: Vec4)
    requires |ms| >= 1
    ensures Apply(MulChain(ms), p) == ApplyAll(ms, p)
    decreases |ms|
  {
    if |ms| > 1 {
      MulChainApply(ms[1..], p);
      MulApply(ms[0], MulChain(ms[1..]), p);
    }
  }

  /** `Matrix.multiply([m0, Matrix.multiply([m1, m2, m3, m4])])` applies m4 first and m0 last. */
  lemma {:induction false} ChainOfFive(m0: Mat4, m1: Mat4, m2: Mat4, m3: Mat4, m4: Mat4, p: Vec4)
    ensures Apply(MulChain([m0, MulChain([m1, m2, m3, m4])]), p) == Apply(m0, Apply(m1, Apply(m2, Apply(m3, Apply(m4, p)))))
  {
    var ms := [m1, m2, m3, m4];
    MulChainApply(ms, p);
    assert ms[1..][1..][1..] == [m4];
    assert ApplyAll([m4], p) == Apply(m4, p);
    assert ms[1..][1..] == [m3, m4];
    assert ApplyAll([m3, m4], p) == Apply(m3, Apply(m4, p));
    assert ms[1..] == [m2, m3, m4];
    assert ApplyAll([m2, m3, m4], p) == Apply(m2, Apply(m3, Apply(m4, p)));
    var q := Apply(MulChain(ms), p);
    MulChainApply([m0, MulChain(ms)], p);
    assert [m0, MulChain(ms)][1..] == [MulChain(ms)];
    assert ApplyAll([MulChain(ms)], p) == q;
    assert ApplyAll([m0, MulChain(ms)], p) == Apply(m0, q);
  }
}
