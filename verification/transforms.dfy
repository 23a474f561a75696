/** The 4x4 transform builders of scripts/transforms.js and the composite
    world-to-canonical-volume matrix built by `mat4x4Perspective`. */
module Transforms {
  import opened Algebra
  import opened Wrappers

  /** The view's `clip = [left, right, bottom, top, near, far]`. */
  datatype Clip = Clip(left: real, right: real, bottom: real, top: real, near: real, far: real)

  /** `mat4x4Identity`: the matrix that leaves every homogeneous point alone. */
  function Identity(): Mat4
  {
    Mat4(Vec4(1.0, 0.0, 0.0, 0.0),
         Vec4(0.0, 1.0, 0.0, 0.0),
         Vec4(0.0, 0.0, 1.0, 0.0),
         Vec4(0.0, 0.0, 0.0, 1.0))
  }

  /** `mat4x4Translate(tx, ty, tz)`: moves a point (w = 1) by (tx, ty, tz);
      a direction (w = 0) is left where it is. */
  function Translate(tx: real, ty: real, tz: real): Mat4
  {
    Mat4(Vec4(1.0, 0.0, 0.0, tx),
         Vec4(0.0, 1.0, 0.0, ty),
         Vec4(0.0, 0.0, 1.0, tz),
         Vec4(0.0, 0.0, 0.0, 1.0))
  }

  /** `mat4x4Scale(sx, sy, sz)`: scales each axis independently, w untouched. */
  function Scale(sx: real, sy: real, sz: real): Mat4
  {
    Mat4(Vec4(sx, 0.0, 0.0, 0.0),
         Vec4(0.0, sy, 0.0, 0.0),
         Vec4(0.0, 0.0, sz, 0.0),
         Vec4(0.0, 0.0, 0.0, 1.0))
  }

  /** `mat4x4ShearXY(shx, shy)`: shears parallel to the xy-plane in proportion
      to z; z and w are unchanged. */
  function ShearXY(shx: real, shy: real): Mat4
  {
    Mat4(Vec4(1.0, 0.0, shx, 0.0),
         Vec4(0.0, 1.0, shy, 0.0),
         Vec4(0.0, 0.0, 1.0, 0.0),
         Vec4(0.0, 0.0, 0.0, 1.0))
  }

  /** `mat4x4MPer`: keeps x, y and z and puts -z into w, so that the later
      divide by w is the perspective divide. */
  function MPer(): Mat4
  {
    Mat4(Vec4(1.0, 0.0, 0.0, 0.0),
         Vec4(0.0, 1.0, 0.0, 0.0),
         Vec4(0.0, 0.0, 1.0, 0.0),
         Vec4(0.0, 0.0, -1.0, 0.0))
  }

  /** `mat4x4Viewport(width, height)`: x and y are scaled by half the canvas
      size and shifted by half the canvas size times w; z and w are kept. */
  function Viewport(width: real, height: real): Mat4
  {
    Mat4(Vec4(width / 2.0, 0.0, 0.0, width / 2.0),
         Vec4(0.0, height / 2.0, 0.0, height / 2.0),
         Vec4(0.0, 0.0, 1.0, 0.0),
         Vec4(0.0, 0.0, 0.0, 1.0))
  }

  // ---------------------------------------------------------------------------
  // What each builder does to a homogeneous point
  // ---------------------------------------------------------------------------

  /** The identity leaves every homogeneous point alone. */
  lemma IdentityApply(p: Vec4)
    ensures Apply(Identity(), p) == p
  {
  }

  /** A translation moves a point (w = 1) by (tx, ty, tz) and leaves a
      direction (w = 0) where it is. */
  lemma TranslateApply(tx: real, ty: real, tz: real, p: Vec4)
    ensures Apply(Translate(tx, ty, tz), p) == Vec4(p.x + tx * p.w, p.y + ty * p.w, p.z + tz * p.w, p.w)
  {
  }

  /** A scale multiplies each axis by its own factor; w is untouched. */
  lemma ScaleApply(sx: real, sy: real, sz: real, p: Vec4)
    ensures Apply(Scale(sx, sy, sz), p) == Vec4(sx * p.x, sy * p.y, sz * p.z, p.w)
  {
  }

  /** The xy-shear adds shx·z to x and shy·z to y; z and w are unchanged. */
  lemma ShearApply(shx: real, shy: real, p: Vec4)
    ensures Apply(ShearXY(shx, shy), p) == Vec4(p.x + shx * p.z, p.y + shy * p.z, p.z, p.w)
  {
  }

  /** `mPer` keeps x, y and z and puts -z into w. */
  lemma MPerApply(p: Vec4)
    ensures Apply(MPer(), p) == Vec4(p.x, p.y, p.z, -p.z)
  {
  }

  /** The viewport maps x to (width/2)(x + w) and y to (height/2)(y + w). */
  lemma ViewportApply(width: real, height: real, p: Vec4)
    ensures Apply(Viewport(width, height), p) == Vec4((width / 2.0) * (p.x + p.w), (height / 2.0) * (p.y + p.w), p.z, p.w)
  {
  }

  // ---------------------------------------------------------------------------
  // Algebraic laws of the builders
  // ---------------------------------------------------------------------------

  /** The identity is neutral for the matrix product on both sides. */
  lemma IdentityNeutral(m: Mat4)
    ensures Mul(Identity(), m) == m
    ensures Mul(m, Identity()) == m
  {
    IdentityApply(Apply(m, E0));
    IdentityApply(Apply(m, E1));
    IdentityApply(Apply(m, E2));
    IdentityApply(Apply(m, E3));
    MulExtensionality(Identity(), m, m);
    IdentityApply(E0);
    IdentityApply(E1);
    IdentityApply(E2);
    IdentityApply(E3);
    MulExtensionality(m, Identity(), m);
  }

  lemma TranslateComposeOn(a: Vec3, b: Vec3, e: Vec4)
    ensures Apply(Translate(a.x, a.y, a.z), Apply(Translate(b.x, b.y, b.z), e)) == Apply(Translate(a.x + b.x, a.y + b.y, a.z + b.z), e)
  {
    TranslateApply(b.x, b.y, b.z, e);
    TranslateApply(a.x, a.y, a.z, Apply(Translate(b.x, b.y, b.z), e));
    TranslateApply(a.x + b.x, a.y + b.y, a.z + b.z, e);
  }

  /** Translating by b and then by a is translating by a + b. */
  lemma TranslateCompose(a: Vec3, b: Vec3)
    ensures Mul(Translate(a.x, a.y, a.z), Translate(b.x, b.y, b.z)) == Translate(a.x + b.x, a.y + b.y, a.z + b.z)
  {
    TranslateComposeOn(a, b, E0);
    TranslateComposeOn(a, b, E1);
    TranslateComposeOn(a, b, E2);
    TranslateComposeOn(a, b, E3);
    MulExtensionality(Translate(a.x, a.y, a.z), Translate(b.x, b.y, b.z), Translate(a.x + b.x, a.y + b.y, a.z + b.z));
  }

  /** Translating by t and then by -t (in either order) is the identity. */
  lemma TranslateInverse(tx: real, ty: real, tz: real)
    ensures Mul(Translate(tx, ty, tz), Translate(-tx, -ty, -tz)) == Identity()
    ensures Mul(Translate(-tx, -ty, -tz), Translate(tx, ty, tz)) == Identity()
  {
    TranslateInverseOn(tx, ty, tz, E0);
    TranslateInverseOn(tx, ty, tz, E1);
    TranslateInverseOn(tx, ty, tz, E2);
    TranslateInverseOn(tx, ty, tz, E3);
    MulExtensionality(Translate(tx, ty, tz), Translate(-tx, -ty, -tz), Identity());
    TranslateInverseOn(-tx, -ty, -tz, E0);
    TranslateInverseOn(-tx, -ty, -tz, E1);
    TranslateInverseOn(-tx, -ty, -tz, E2);
    TranslateInverseOn(-tx, -ty, -tz, E3);
    MulExtensionality(Translate(-tx, -ty, -tz), Translate(tx, ty, tz), Identity());
  }

  lemma TranslateInverseOn(tx: real, ty: real, tz: real, e: Vec4)
    ensures Apply(Translate(tx, ty, tz), Apply(Translate(-tx, -ty, -tz), e)) == Apply(Identity(), e)
    ensures Apply(Translate(-tx, -ty, -tz), Apply(Translate(tx, ty, tz), e)) == Apply(Identity(), e)
  {
    TranslateApply(-tx, -ty, -tz, e);
    TranslateApply(tx, ty, tz, Apply(Translate(-tx, -ty, -tz), e));
    TranslateApply(tx, ty, tz, e);
    TranslateApply(-tx, -ty, -tz, Apply(Translate(tx, ty, tz), e));
    IdentityApply(e);
  }

  /** A point moved by `Translate` lands at the vector sum. */
  lemma TranslatePoint(p: Vec3, t: Vec3)
    ensures Apply(Translate(t.x, t.y, t.z), Point(p)) == Point(Add(p, t))
  {
    TranslateApply(t.x, t.y, t.z, Point(p));
  }

  lemma ScaleInverseOn(sx: real, sy: real, sz: real, e: Vec4)
    requires sx != 0.0 && sy != 0.0 && sz != 0.0
    ensures Apply(Scale(sx, sy, sz), Apply(Scale(1.0 / sx, 1.0 / sy, 1.0 / sz), e)) == Apply(Identity(), e)
  {
    ScaleApply(1.0 / sx, 1.0 / sy, 1.0 / sz, e);
    ScaleApply(sx, sy, sz, Apply(Scale(1.0 / sx, 1.0 / sy, 1.0 / sz), e));
    IdentityApply(e);
    assert sx * ((1.0 / sx) * e.x) == e.x;
    assert sy * ((1.0 / sy) * e.y) == e.y;
    assert sz * ((1.0 / sz) * e.z) == e.z;
  }

  /** A scale with non-zero factors is undone by the reciprocal scale. */
  lemma ScaleInverse(sx: real, sy: real, sz: real)
    requires sx != 0.0 && sy != 0.0 && sz != 0.0
    ensures Mul(Scale(sx, sy, sz), Scale(1.0 / sx, 1.0 / sy, 1.0 / sz)) == Identity()
  {
    ScaleInverseOn(sx, sy, sz, E0);
    ScaleInverseOn(sx, sy, sz, E1);
    ScaleInverseOn(sx, sy, sz, E2);
    ScaleInverseOn(sx, sy, sz, E3);
    MulExtensionality(Scale(sx, sy, sz), Scale(1.0 / sx, 1.0 / sy, 1.0 / sz), Identity());
  }

  lemma ShearInverseOn(shx: real, shy: real, e: Vec4)
    ensures Apply(ShearXY(shx, shy), Apply(ShearXY(-shx, -shy), e)) == Apply(Identity(), e)
  {
    ShearApply(-shx, -shy, e);
    ShearApply(shx, shy, Apply(ShearXY(-shx, -shy), e));
    IdentityApply(e);
  }

  /** A shear is undone by the opposite shear. */
  lemma ShearInverse(shx: real, shy: real)
    ensures Mul(ShearXY(shx, shy), ShearXY(-shx, -shy)) == Identity()
  {
    ShearInverseOn(shx, shy, E0);
    ShearInverseOn(shx, shy, E1);
    ShearInverseOn(shx, shy, E2);
    ShearInverseOn(shx, shy, E3);
    MulExtensionality(ShearXY(shx, shy), ShearXY(-shx, -shy), Identity());
  }

  /** `mPer` is idempotent: applying it a second time, as `draw` does after
      the perspective matrix, changes nothing. */
  lemma MPerIdempotent()
    ensures Mul(MPer(), MPer()) == MPer()
  {
    MPerTwiceOn(E0);
    MPerTwiceOn(E1);
    MPerTwiceOn(E2);
    MPerTwiceOn(E3);
    MulExtensionality(MPer(), MPer(), MPer());
  }

  lemma MPerTwiceOn(e: Vec4)
    ensures Apply(MPer(), Apply(MPer(), e)) == Apply(MPer(), e)
  {
    MPerApply(e);
    MPerApply(Apply(MPer(), e));
  }

  /** After `mPer`, dividing by w projects a point onto the plane z = -1,
      scaling x and y by 1/(-z). */
  lemma MPerProjectsOntoPlane(p: Vec3)
    requires p.z != 0.0
    ensures Apply(MPer(), Point(p)).w != 0.0
    ensures Dehomogenize(Apply(MPer(), Point(p))) == Vec3(p.x / -p.z, p.y / -p.z, -1.0)
  {
    MPerApply(Point(p));
    assert p.z / -p.z == -1.0;
  }

  /** The viewport sends the corners (-1, -1) and (1, 1) of the canonical
      square to the canvas corners (0, 0) and (width, height). */
  lemma ViewportCorners(width: real, height: real, z: real)
    ensures Apply(Viewport(width, height), Vec4(-1.0, -1.0, z, 1.0)) == Vec4(0.0, 0.0, z, 1.0)
    ensures Apply(Viewport(width, height), Vec4(1.0, 1.0, z, 1.0)) == Vec4(width, height, z, 1.0)
  {
    ViewportApply(width, height, Vec4(-1.0, -1.0, z, 1.0));
    ViewportApply(width, height, Vec4(1.0, 1.0, z, 1.0));
  }

  /** For a non-negative canvas size, the canonical square [-1, 1]² lands
      inside the canvas [0, width] x [0, height]. */
  lemma ViewportInCanvas(width: real, height: real, x: real, y: real, z: real)
    requires width >= 0.0 && height >= 0.0
    requires -1.0 <= x <= 1.0 && -1.0 <= y <= 1.0
    ensures
      var q := Apply(Viewport(width, height), Vec4(x, y, z, 1.0));
      0.0 <= q.x <= width && 0.0 <= q.y <= height
  {
    var q := Apply(Viewport(width, height), Vec4(x, y, z, 1.0));
    ViewportApply(width, height, Vec4(x, y, z, 1.0));
    assert q.x == (width / 2.0) * (x + 1.0);
    assert q.y == (height / 2.0) * (y + 1.0);
    HalfScaleInRange(width, x);
    HalfScaleInRange(height, y);
  }

  /** For -1 <= a <= 1, (size/2)·(a + 1) lies in [0, size]. */
  lemma HalfScaleInRange(size: real, a: real)
    requires size >= 0.0 && -1.0 <= a <= 1.0
    ensures 0.0 <= (size / 2.0) * (a + 1.0) <= size
  {
    var h := size / 2.0;
    assert h * (a + 1.0) >= 0.0;
    assert h * (1.0 - a) >= 0.0;
    assert h * (a + 1.0) + h * (1.0 - a) == size;
  }

  // ---------------------------------------------------------------------------
  // The composite of mat4x4Perspective
  // ---------------------------------------------------------------------------

  /** The view-reference frame (u, v, n) of `mat4x4Perspective`. */
  datatype Frame = Frame(u: Vec3, v: Vec3, n: Vec3)

  lemma DotScale(k: real, a: Vec3, b: Vec3)
    ensures Dot(ScaleBy(k, a), b) == k * Dot(a, b)
    ensures Dot(b, ScaleBy(k, a)) == k * Dot(b, a)
  {
  }

  /** n = normalize(prp - srp), u = normalize(vup x n), v = n x u. The
      normalisations are the positive factors kn and ku (one over the length in
      the source); whatever their values, the three axes are pairwise orthogonal. */
  function ViewFrame(prp: Vec3, srp: Vec3, vup: Vec3, kn: real, ku: real): (f: Frame)
    ensures Dot(f.u, f.n) == 0.0
    ensures Dot(f.v, f.n) == 0.0
    ensures Dot(f.v, f.u) == 0.0
  {
    var n := ScaleBy(kn, Sub(prp, srp));
    var w := Cross(vup, n);
    var u := ScaleBy(ku, w);
    DotScale(ku, w, n);
    Frame(u, Cross(n, u), n)
  }

  /** `rotateVRC`: the matrix whose first three rows are u, v and n. */
  function RotateVrc(f: Frame): Mat4 {
    Mat4(Vec4(f.u.x, f.u.y, f.u.z, 0.0),
         Vec4(f.v.x, f.v.y, f.v.z, 0.0),
         Vec4(f.n.x, f.n.y, f.n.z, 0.0),
         Vec4(0.0, 0.0, 0.0, 1.0))
  }

  /** The rotation gives a point its components along u, v and n; w is kept. */
  lemma RotateApply(f: Frame, p: Vec4)
    ensures Apply(RotateVrc(f), p) == Vec4(Dot(f.u, Spatial(p)), Dot(f.v, Spatial(p)), Dot(f.n, Spatial(p)), p.w)
  {
  }

  /** After translating PRP to the origin and rotating into (u, v, n), the
      scene reference point lies on the negative n-axis: x = y = 0 and
      z = -kn·|prp - srp|², which is negative unless PRP = SRP. */
  lemma SrpOntoViewAxis(prp: Vec3, srp: Vec3, vup: Vec3, kn: real, ku: real)
    requires kn > 0.0
    ensures
      var q := Apply(RotateVrc(ViewFrame(prp, srp, vup, kn, ku)), Apply(Translate(-prp.x, -prp.y, -prp.z), Point(srp)));
      q == Vec4(0.0, 0.0, -kn * NormSquared(Sub(prp, srp)), 1.0) && q.z <= 0.0
  {
    var d := Sub(prp, srp);
    var f := ViewFrame(prp, srp, vup, kn, ku);
    var t := Apply(Translate(-prp.x, -prp.y, -prp.z), Point(srp));
    TranslateApply(-prp.x, -prp.y, -prp.z, Point(srp));
    RotateApply(f, t);
    var e := Spatial(t);
    assert e == ScaleBy(-1.0, d);
    // n = kn·d, so u·n = 0 and v·n = 0 give u·d = 0 and v·d = 0.
    DotScale(kn, d, f.u);
    DotScale(kn, d, f.v);
    assert kn * Dot(f.u, d) == 0.0 && kn * Dot(f.v, d) == 0.0;
    assert Dot(f.u, d) == 0.0 && Dot(f.v, d) == 0.0;
    DotScale(-1.0, d, f.u);
    DotScale(-1.0, d, f.v);
    DotScale(-1.0, d, f.n);
    DotScale(kn, d, d);
    assert Dot(f.n, e) == -kn * NormSquared(d);
    assert kn * NormSquared(d) >= 0.0;
  }

  /** CW as the source computes it: its y component uses clip[0] (left) and
      clip[3] (top). */
  function WindowCenterAsWritten(c: Clip): Vec3 {
    Vec3((c.left + c.right) / 2.0, (c.left + c.top) / 2.0, -c.near)
  }

  /** The centre of the view window on the near plane. */
  function WindowCenter(c: Clip): (cw: Vec3)
    ensures cw.x - c.left == c.right - cw.x
    ensures cw.y - c.bottom == c.top - cw.y
    ensures cw.z == -c.near
  {
    Vec3((c.left + c.right) / 2.0, (c.bottom + c.top) / 2.0, -c.near)
  }

  /** The two centres agree exactly when left == bottom. */
  lemma WindowCentersAgree(c: Clip)
    ensures WindowCenterAsWritten(c) == WindowCenter(c) <==> c.left == c.bottom
  {
  }

  /** `shearCW`: the shear by (-DOP.x/DOP.z, -DOP.y/DOP.z); `None` when DOP.z
      is zero, where the source divides by zero. It moves DOP onto the z-axis. */
  function ShearToAxis(dop: Vec3): (r: Option<Mat4>)
    ensures r.Some? <==> dop.z != 0.0
    ensures r.Some? ==> Apply(r.value, Point(dop)) == Vec4(0.0, 0.0, dop.z, 1.0)
  {
    if dop.z == 0.0 then None
    else
      var shx, shy := -dop.x / dop.z, -dop.y / dop.z;
      ShearApply(shx, shy, Point(dop));
      Some(ShearXY(shx, shy))
  }

  /** The shear moves every point of the line through the origin along DOP
      onto the z-axis, keeping its depth. */
  lemma ShearToAxisLine(dop: Vec3, t: real, w: real)
    requires dop.z != 0.0
    ensures Apply(ShearToAxis(dop).value, Vec4(t * dop.x, t * dop.y, t * dop.z, w)) == Vec4(0.0, 0.0, t * dop.z, w)
  {
    var shx, shy := -dop.x / dop.z, -dop.y / dop.z;
    ShearApply(shx, shy, Vec4(t * dop.x, t * dop.y, t * dop.z, w));
    assert shx * dop.z == -dop.x && shy * dop.z == -dop.y;
    assert shx * (t * dop.z) == t * (shx * dop.z);
    assert shy * (t * dop.z) == t * (shy * dop.z);
  }

  /** The scale divisors (right-left)·far, (top-bottom)·far and far are all non-zero. */
  predicate ScaleDefined(c: Clip) {
    c.right != c.left && c.top != c.bottom && c.far != 0.0
  }

  lemma ProductNonZero(a: real, b: real)
    requires a != 0.0 && b != 0.0
    ensures a * b != 0.0
  {
    assert (a * b) / b == a;
  }

  /** (2·near / (extent·far)) · (extent / 2) = near / far. */
  lemma HalfExtentScale(near: real, extent: real, far: real)
    requires extent != 0.0 && far != 0.0
    ensures extent * far != 0.0
    ensures ((2.0 * near) / (extent * far)) * (extent / 2.0) == near / far
  {
    ProductNonZero(extent, far);
    var q := (2.0 * near) / (extent * far);
    assert q * (extent * far) == 2.0 * near;
    assert (q * (extent / 2.0)) * far == near;
  }

  /** `scalePer`: scale by 2·near/((right-left)·far), 2·near/((top-bottom)·far)
      and 1/far; `None` when a divisor is zero. */
  function PerspectiveScale(c: Clip): (r: Option<Mat4>)
    ensures r.Some? <==> ScaleDefined(c)
  {
    if !ScaleDefined(c) then None
    else
      ProductNonZero(c.right - c.left, c.far);
      ProductNonZero(c.top - c.bottom, c.far);
      Some(Scale((2.0 * c.near) / ((c.right - c.left) * c.far),
                 (2.0 * c.near) / ((c.top - c.bottom) * c.far),
                 1.0 / c.far))
  }

  /** The perspective scale acts as Scale(sx, sy, sz) with the source's factors. */
  lemma PerspectiveScaleApply(c: Clip, p: Vec4)
    requires ScaleDefined(c)
    ensures (c.right - c.left) * c.far != 0.0 && (c.top - c.bottom) * c.far != 0.0
    ensures Apply(PerspectiveScale(c).value, p) ==
      Vec4(((2.0 * c.near) / ((c.right - c.left) * c.far)) * p.x,
           ((2.0 * c.near) / ((c.top - c.bottom) * c.far)) * p.y,
           (1.0 / c.far) * p.z, p.w)
  {
    ProductNonZero(c.right - c.left, c.far);
    ProductNonZero(c.top - c.bottom, c.far);
    var sx, sy, sz := (2.0 * c.near) / ((c.right - c.left) * c.far), (2.0 * c.near) / ((c.top - c.bottom) * c.far), 1.0 / c.far;
    assert PerspectiveScale(c).value == Scale(sx, sy, sz);
    ScaleApply(sx, sy, sz, p);
  }

  /** The scale sends the far plane z = -far to z = -1 and the near plane
      z = -near to z = -near/far (the canonical volume's zmin). */
  lemma ScaleDepths(c: Clip, x: real, y: real)
    requires ScaleDefined(c)
    ensures Apply(PerspectiveScale(c).value, Vec4(x, y, -c.far, 1.0)).z == -1.0
    ensures Apply(PerspectiveScale(c).value, Vec4(x, y, -c.near, 1.0)).z == -c.near / c.far
  {
    PerspectiveScaleApply(c, Vec4(x, y, -c.far, 1.0));
    PerspectiveScaleApply(c, Vec4(x, y, -c.near, 1.0));
  }

  /** On the near plane, the window's half-extents are sent onto the
      canonical side planes x = -z and y = -z, and their negations onto
      x = z and y = z. */
  lemma ScaleWindowEdges(c: Clip)
    requires ScaleDefined(c)
    ensures
      var q := Apply(PerspectiveScale(c).value, Vec4((c.right - c.left) / 2.0, (c.top - c.bottom) / 2.0, -c.near, 1.0));
      q.x == -q.z && q.y == -q.z && q.z == -c.near / c.far
    ensures
      var q := Apply(PerspectiveScale(c).value, Vec4(-(c.right - c.left) / 2.0, -(c.top - c.bottom) / 2.0, -c.near, 1.0));
      q.x == q.z && q.y == q.z && q.z == -c.near / c.far
  {
    ScaleHalfExtents(c, 1.0);
    ScaleHalfExtents(c, -1.0);
  }

  /** The scale sends (k·(right-left)/2, k·(top-bottom)/2, -near) to
      (k·near/far, k·near/far, -near/far). */
  lemma ScaleHalfExtents(c: Clip, k: real)
    requires ScaleDefined(c)
    ensures
      var q := Apply(PerspectiveScale(c).value, Vec4(k * (c.right - c.left) / 2.0, k * (c.top - c.bottom) / 2.0, -c.near, 1.0));
      q.x == k * (c.near / c.far) && q.y == k * (c.near / c.far) && q.z == -c.near / c.far
  {
    var dx, dy := c.right - c.left, c.top - c.bottom;
    PerspectiveScaleApply(c, Vec4(k * dx / 2.0, k * dy / 2.0, -c.near, 1.0));
    HalfExtentScale(c.near, dx, c.far);
    HalfExtentScale(c.near, dy, c.far);
    var sx, sy := (2.0 * c.near) / (dx * c.far), (2.0 * c.near) / (dy * c.far);
    assert sx * (k * dx / 2.0) == k * (sx * (dx / 2.0));
    assert sy * (k * dy / 2.0) == k * (sy * (dy / 2.0));
    assert (1.0 / c.far) * -c.near == -c.near / c.far;
  }

  /** The composite of `mat4x4Perspective` for a given view frame:
      mPer · (scale · shear · rotate · translate(-prp)). `None` when the source
      divides by zero (dop.z = 0, or a zero scale divisor). */
  function PerspectiveOfFrame(f: Frame, prp: Vec3, c: Clip, dop: Vec3): (r: Option<Mat4>)
    ensures r.Some? <==> dop.z != 0.0 && ScaleDefined(c)
  {
    if dop.z == 0.0 || !ScaleDefined(c) then None
    else
      var nPer := MulChain([PerspectiveScale(c).value, ShearToAxis(dop).value, RotateVrc(f), Translate(-prp.x, -prp.y, -prp.z)]);
      Some(MulChain([MPer(), nPer]))
  }

  /** `mat4x4Perspective` with the direction of projection `dop` as a parameter. */
  function PerspectiveWith(prp: Vec3, srp: Vec3, vup: Vec3, c: Clip, dop: Vec3, kn: real, ku: real): (r: Option<Mat4>)
    ensures r.Some? <==> dop.z != 0.0 && ScaleDefined(c)
  {
    PerspectiveOfFrame(ViewFrame(prp, srp, vup, kn, ku), prp, c, dop)
  }

  /** `mat4x4Perspective` as written, with the source's CW. */
  function PerspectiveAsWritten(prp: Vec3, srp: Vec3, vup: Vec3, c: Clip, kn: real, ku: real): (r: Option<Mat4>)
    ensures r.Some? <==> c.near != 0.0 && ScaleDefined(c)
  {
    PerspectiveWith(prp, srp, vup, c, WindowCenterAsWritten(c), kn, ku)
  }

  /** `mat4x4Perspective` with the window centre (left+right)/2, (bottom+top)/2. */
  function Perspective(prp: Vec3, srp: Vec3, vup: Vec3, c: Clip, kn: real, ku: real): (r: Option<Mat4>)
    ensures r.Some? <==> c.near != 0.0 && ScaleDefined(c)
  {
    PerspectiveWith(prp, srp, vup, c, WindowCenter(c), kn, ku)
  }

  lemma PerspectiveValue(f: Frame, prp: Vec3, c: Clip, dop: Vec3)
    requires dop.z != 0.0 && ScaleDefined(c)
    ensures PerspectiveOfFrame(f, prp, c, dop).value ==
      MulChain([MPer(), MulChain([PerspectiveScale(c).value, ShearToAxis(dop).value, RotateVrc(f), Translate(-prp.x, -prp.y, -prp.z)])])
  {
  }

  /** The composite acts on a point as its five stages do, translate first. */
  lemma {:induction false} PerspectiveStages(f: Frame, prp: Vec3, c: Clip, dop: Vec3, p: Vec4)
    requires dop.z != 0.0 && ScaleDefined(c)
    ensures
      Apply(PerspectiveOfFrame(f, prp, c, dop).value, p) ==
      Apply(MPer(), Apply(PerspectiveScale(c).value, Apply(ShearToAxis(dop).value, Apply(RotateVrc(f), Apply(Translate(-prp.x, -prp.y, -prp.z), p)))))
  {
    PerspectiveValue(f, prp, c, dop);
    ChainOfFive(MPer(), PerspectiveScale(c).value, ShearToAxis(dop).value, RotateVrc(f), Translate(-prp.x, -prp.y, -prp.z), p);
  }

  const Origin := E3

  lemma TranslateToOrigin(prp: Vec3)
    ensures Apply(Translate(-prp.x, -prp.y, -prp.z), Point(prp)) == Origin
  {
    TranslateApply(-prp.x, -prp.y, -prp.z, Point(prp));
  }

  /** The rotation, the shear and the scale fix the homogeneous origin, and
      mPer sends it to the zero vector. */
  lemma StagesFixOrigin(f: Frame, dop: Vec3, c: Clip)
    requires dop.z != 0.0 && ScaleDefined(c)
    ensures Apply(RotateVrc(f), Origin) == Origin
    ensures Apply(ShearToAxis(dop).value, Origin) == Origin
    ensures Apply(PerspectiveScale(c).value, Origin) == Origin
    ensures Apply(MPer(), Origin) == Vec4(0.0, 0.0, 0.0, 0.0)
  {
    RotateFixesOrigin(f);
    ShearFixesOrigin(dop);
    ScaleFixesOrigin(c);
    MPerApply(Origin);
  }

  lemma RotateFixesOrigin(f: Frame)
    ensures Apply(RotateVrc(f), Origin) == Origin
  {
    RotateApply(f, Origin);
  }

  lemma ShearFixesOrigin(dop: Vec3)
    requires dop.z != 0.0
    ensures Apply(ShearToAxis(dop).value, Origin) == Origin
  {
    ShearApply(-dop.x / dop.z, -dop.y / dop.z, Origin);
  }

  lemma ScaleFixesOrigin(c: Clip)
    requires ScaleDefined(c)
    ensures Apply(PerspectiveScale(c).value, Origin) == Origin
  {
    PerspectiveScaleApply(c, Origin);
  }

  /** Every stage fixes the homogeneous origin once PRP is moved there, and
      mPer then zeroes w: the composite sends PRP to the zero vector, for any
      frame (u, v, n) and any direction of projection. */
  lemma PerspectivePrpToZero(f: Frame, prp: Vec3, c: Clip, dop: Vec3)
    requires dop.z != 0.0 && ScaleDefined(c)
    ensures Apply(PerspectiveOfFrame(f, prp, c, dop).value, Point(prp)) == Vec4(0.0, 0.0, 0.0, 0.0)
  {
    PerspectiveStages(f, prp, c, dop, Point(prp));
    TranslateToOrigin(prp);
    StagesFixOrigin(f, dop, c);
  }

  /** How each stage moves the depth z: the rotation makes it the component
      along n, the shear keeps it, the scale divides it by far, and mPer keeps
      it and copies its negation into w. */
  lemma StageDepths(f: Frame, dop: Vec3, c: Clip, p: Vec4)
    requires dop.z != 0.0 && ScaleDefined(c)
    ensures Apply(RotateVrc(f), p).z == Dot(f.n, Spatial(p))
    ensures Apply(ShearToAxis(dop).value, p).z == p.z
    ensures Apply(PerspectiveScale(c).value, p).z == (1.0 / c.far) * p.z
    ensures Apply(MPer(), p).z == p.z && Apply(MPer(), p).w == -p.z
  {
    RotateApply(f, p);
    ShearApply(-dop.x / dop.z, -dop.y / dop.z, p);
    PerspectiveScaleApply(c, p);
    MPerApply(p);
  }

  lemma TranslateSpatial(prp: Vec3, p: Vec3)
    ensures Spatial(Apply(Translate(-prp.x, -prp.y, -prp.z), Point(p))) == Sub(p, prp)
  {
    TranslateApply(-prp.x, -prp.y, -prp.z, Point(p));
  }

  /** The depth of a transformed point is its component along n relative to
      PRP divided by far, and mPer copies the negated depth into w. */
  lemma PerspectiveDepth(f: Frame, prp: Vec3, c: Clip, dop: Vec3, p: Vec3)
    requires dop.z != 0.0 && ScaleDefined(c)
    ensures
      var q := Apply(PerspectiveOfFrame(f, prp, c, dop).value, Point(p));
      q.z == (1.0 / c.far) * Dot(f.n, Sub(p, prp)) && q.w == -q.z
  {
    var t := Apply(Translate(-prp.x, -prp.y, -prp.z), Point(p));
    TranslateSpatial(prp, p);
    DepthThroughStages(f, dop, c, t, Dot(f.n, Sub(p, prp)));
    PerspectiveStages(f, prp, c, dop, Point(p));
  }

  /** The four stages after the translation take a point's depth to its
      component along n divided by far, and put its negation into w. */
  lemma DepthThroughStages(f: Frame, dop: Vec3, c: Clip, t: Vec4, d: real)
    requires dop.z != 0.0 && ScaleDefined(c)
    requires Dot(f.n, Spatial(t)) == d
    ensures
      var q := Apply(MPer(), Apply(PerspectiveScale(c).value, Apply(ShearToAxis(dop).value, Apply(RotateVrc(f), t))));
      q.z == (1.0 / c.far) * d && q.w == -q.z
  {
    var r := Apply(RotateVrc(f), t);
    StageDepths(f, dop, c, t);
    var s := Apply(ShearToAxis(dop).value, r);
    StageDepths(f, dop, c, r);
    var k := Apply(PerspectiveScale(c).value, s);
    StageDepths(f, dop, c, s);
    StageDepths(f, dop, c, k);
  }

  /** With the true window centre, the corners of the view window (in
      view-reference coordinates on the near plane) land on the edges of the
      canonical frustum: the top-right corner on x = y = -z, the bottom-left
      corner on x = y = z, both at depth z = -near/far. */
  lemma WindowCornersOntoFrustum(c: Clip)
    requires c.near != 0.0 && ScaleDefined(c)
    ensures
      var q := Apply(PerspectiveScale(c).value, Apply(ShearToAxis(WindowCenter(c)).value, Vec4(c.right, c.top, -c.near, 1.0)));
      q.x == -q.z && q.y == -q.z && q.z == -c.near / c.far
    ensures
      var q := Apply(PerspectiveScale(c).value, Apply(ShearToAxis(WindowCenter(c)).value, Vec4(c.left, c.bottom, -c.near, 1.0)));
      q.x == q.z && q.y == q.z && q.z == -c.near / c.far
  {
    var cw := WindowCenter(c);
    var shx, shy := -cw.x / cw.z, -cw.y / cw.z;
    assert shx == cw.x / c.near && shy == cw.y / c.near;
    assert shx * -c.near == -cw.x && shy * -c.near == -cw.y;
    ShearApply(shx, shy, Vec4(c.right, c.top, -c.near, 1.0));
    ShearApply(shx, shy, Vec4(c.left, c.bottom, -c.near, 1.0));
    ScaleWindowEdges(c);
  }

  /** The source's shear sends the top-right window corner to
      ((right-left)/2, (top-left)/2, -near): its y is measured from left, not
      from bottom. */
  lemma AsWrittenShearCorner(c: Clip)
    requires c.near != 0.0
    ensures Apply(ShearToAxis(WindowCenterAsWritten(c)).value, Vec4(c.right, c.top, -c.near, 1.0)) ==
            Vec4((c.right - c.left) / 2.0, (c.top - c.left) / 2.0, -c.near, 1.0)
  {
    var cw := WindowCenterAsWritten(c);
    var shx, shy := -cw.x / cw.z, -cw.y / cw.z;
    assert shx * -c.near == -cw.x && shy * -c.near == -cw.y;
    ShearApply(shx, shy, Vec4(c.right, c.top, -c.near, 1.0));
  }

  lemma NonZeroQuotient(a: real, b: real)
    requires a != 0.0 && b != 0.0
    ensures a / b != 0.0
  {
    assert (a / b) * b == a;
  }

  /** If k·(t-b)/2 = d with k non-zero, then k·(t-l)/2 = d exactly when l = b. */
  lemma OffsetHitsIff(k: real, t: real, b: real, l: real, d: real)
    requires k != 0.0 && k * ((t - b) / 2.0) == d
    ensures k * ((t - l) / 2.0) == d <==> l == b
  {
    assert k * ((t - l) / 2.0) - d == k * ((b - l) / 2.0);
    if l != b {
      ProductNonZero(k, (b - l) / 2.0);
    }
  }

  /** The y-factor 2·near/((top-bottom)·far) of the perspective scale is
      non-zero and sends the half-height to near/far. */
  lemma ScaleYFactor(c: Clip)
    requires c.near != 0.0 && ScaleDefined(c)
    ensures (c.top - c.bottom) * c.far != 0.0
    ensures (2.0 * c.near) / ((c.top - c.bottom) * c.far) != 0.0
    ensures ((2.0 * c.near) / ((c.top - c.bottom) * c.far)) * ((c.top - c.bottom) / 2.0) == c.near / c.far
  {
    HalfExtentScale(c.near, c.top - c.bottom, c.far);
    NonZeroQuotient(2.0 * c.near, (c.top - c.bottom) * c.far);
  }

  /** Where the source's matrix (before mPer) puts the top-right window corner. */
  lemma AsWrittenCornerImage(c: Clip)
    requires c.near != 0.0 && ScaleDefined(c)
    ensures (c.top - c.bottom) * c.far != 0.0
    ensures
      var q := Apply(PerspectiveScale(c).value, Apply(ShearToAxis(WindowCenterAsWritten(c)).value, Vec4(c.right, c.top, -c.near, 1.0)));
      q.y == ((2.0 * c.near) / ((c.top - c.bottom) * c.far)) * ((c.top - c.left) / 2.0) && -q.z == c.near / c.far
  {
    var s := Vec4((c.right - c.left) / 2.0, (c.top - c.left) / 2.0, -c.near, 1.0);
    AsWrittenShearCorner(c);
    PerspectiveScaleApply(c, s);
    assert -((1.0 / c.far) * -c.near) == c.near / c.far;
  }

  /** With the source's CW, the window's top-right corner lands on the
      canonical plane y = -z exactly when left == bottom; for any other
      window it misses the frustum edge. */
  lemma WindowCornerAsWritten(c: Clip)
    requires c.near != 0.0 && ScaleDefined(c)
    ensures
      var q := Apply(PerspectiveScale(c).value, Apply(ShearToAxis(WindowCenterAsWritten(c)).value, Vec4(c.right, c.top, -c.near, 1.0)));
      -q.z == c.near / c.far && (q.y == -q.z <==> c.left == c.bottom)
  {
    AsWrittenCornerImage(c);
    ScaleYFactor(c);
    OffsetHitsIff((2.0 * c.near) / ((c.top - c.bottom) * c.far), c.top, c.bottom, c.left, c.near / c.far);
  }

  /** For clip = [-2, 2, -1, 1, 1, 3], the source's shear and scale stages put
      the window's top-right corner off the frustum edge y = -z. */
  lemma WindowCornerAsWrittenMisses()
    ensures
      var c := Clip(-2.0, 2.0, -1.0, 1.0, 1.0, 3.0);
      var q := Apply(PerspectiveScale(c).value, Apply(ShearToAxis(WindowCenterAsWritten(c)).value, Vec4(c.right, c.top, -c.near, 1.0)));
      q.y != -q.z
  {
    WindowCornerAsWritten(Clip(-2.0, 2.0, -1.0, 1.0, 1.0, 3.0));
  }

  /** A scene point that the translation and the rotation put at `corner`
      ends up where mPer, the scale and the shear send `corner`. */
  lemma CompositeOfViewPoint(f: Frame, prp: Vec3, c: Clip, dop: Vec3, p: Vec3, corner: Vec4)
    requires dop.z != 0.0 && ScaleDefined(c)
    requires Apply(RotateVrc(f), Apply(Translate(-prp.x, -prp.y, -prp.z), Point(p))) == corner
    ensures Apply(PerspectiveOfFrame(f, prp, c, dop).value, Point(p)) ==
      Apply(MPer(), Apply(PerspectiveScale(c).value, Apply(ShearToAxis(dop).value, corner)))
  {
    PerspectiveStages(f, prp, c, dop, Point(p));
  }

  /** After mPer, the corrected images of the window corners lie on the frustum edges. */
  lemma CornersAfterMPer(c: Clip)
    requires c.near != 0.0 && ScaleDefined(c)
    ensures
      var q := Apply(MPer(), Apply(PerspectiveScale(c).value, Apply(ShearToAxis(WindowCenter(c)).value, Vec4(c.right, c.top, -c.near, 1.0))));
      q.x == -q.z && q.y == -q.z && q.z == -c.near / c.far && q.w == c.near / c.far
    ensures
      var q := Apply(MPer(), Apply(PerspectiveScale(c).value, Apply(ShearToAxis(WindowCenter(c)).value, Vec4(c.left, c.bottom, -c.near, 1.0))));
      q.x == q.z && q.y == q.z && q.z == -c.near / c.far && q.w == c.near / c.far
  {
    var cw := WindowCenter(c);
    WindowCornersOntoFrustum(c);
    MPerApply(Apply(PerspectiveScale(c).value, Apply(ShearToAxis(cw).value, Vec4(c.right, c.top, -c.near, 1.0))));
    MPerApply(Apply(PerspectiveScale(c).value, Apply(ShearToAxis(cw).value, Vec4(c.left, c.bottom, -c.near, 1.0))));
  }

  /** After mPer, the as-written image of the top-right corner meets y = -z
      exactly when left = bottom. */
  lemma AsWrittenCornerAfterMPer(c: Clip)
    requires c.near != 0.0 && ScaleDefined(c)
    ensures
      var q := Apply(MPer(), Apply(PerspectiveScale(c).value, Apply(ShearToAxis(WindowCenterAsWritten(c)).value, Vec4(c.right, c.top, -c.near, 1.0))));
      q.z == -c.near / c.far && (q.y == -q.z <==> c.left == c.bottom)
  {
    WindowCornerAsWritten(c);
    MPerApply(Apply(PerspectiveScale(c).value, Apply(ShearToAxis(WindowCenterAsWritten(c)).value, Vec4(c.right, c.top, -c.near, 1.0))));
  }

  /** Where the corrected `mat4x4Perspective` sends a scene point that the
      translation and the rotation put on the window's top-right corner: onto
      the frustum edge x = y = -z, at depth -near/far, with w = near/far. */
  lemma PerspectiveTopRightCorner(prp: Vec3, srp: Vec3, vup: Vec3, c: Clip, kn: real, ku: real, p: Vec3)
    requires c.near != 0.0 && ScaleDefined(c)
    requires Apply(RotateVrc(ViewFrame(prp, srp, vup, kn, ku)), Apply(Translate(-prp.x, -prp.y, -prp.z), Point(p))) == Vec4(c.right, c.top, -c.near, 1.0)
    ensures
      var q := Apply(Perspective(prp, srp, vup, c, kn, ku).value, Point(p));
      q.x == -q.z && q.y == -q.z && q.z == -c.near / c.far && q.w == c.near / c.far
  {
    CompositeOfViewPoint(ViewFrame(prp, srp, vup, kn, ku), prp, c, WindowCenter(c), p, Vec4(c.right, c.top, -c.near, 1.0));
    CornersAfterMPer(c);
  }

  /** The same for the bottom-left corner: onto the frustum edge x = y = z. */
  lemma PerspectiveBottomLeftCorner(prp: Vec3, srp: Vec3, vup: Vec3, c: Clip, kn: real, ku: real, p: Vec3)
    requires c.near != 0.0 && ScaleDefined(c)
    requires Apply(RotateVrc(ViewFrame(prp, srp, vup, kn, ku)), Apply(Translate(-prp.x, -prp.y, -prp.z), Point(p))) == Vec4(c.left, c.bottom, -c.near, 1.0)
    ensures
      var q := Apply(Perspective(prp, srp, vup, c, kn, ku).value, Point(p));
      q.x == q.z && q.y == q.z && q.z == -c.near / c.far && q.w == c.near / c.far
  {
    CompositeOfViewPoint(ViewFrame(prp, srp, vup, kn, ku), prp, c, WindowCenter(c), p, Vec4(c.left, c.bottom, -c.near, 1.0));
    CornersAfterMPer(c);
  }

  /** `mat4x4Perspective` as written sends the scene point on the window's
      top-right corner onto the frustum edge y = -z exactly when left = bottom. */
  lemma PerspectiveAsWrittenTopRightCorner(prp: Vec3, srp: Vec3, vup: Vec3, c: Clip, kn: real, ku: real, p: Vec3)
    requires c.near != 0.0 && ScaleDefined(c)
    requires Apply(RotateVrc(ViewFrame(prp, srp, vup, kn, ku)), Apply(Translate(-prp.x, -prp.y, -prp.z), Point(p))) == Vec4(c.right, c.top, -c.near, 1.0)
    ensures
      var q := Apply(PerspectiveAsWritten(prp, srp, vup, c, kn, ku).value, Point(p));
      q.z == -c.near / c.far && (q.y == -q.z <==> c.left == c.bottom)
  {
    CompositeOfViewPoint(ViewFrame(prp, srp, vup, kn, ku), prp, c, WindowCenterAsWritten(c), p, Vec4(c.right, c.top, -c.near, 1.0));
    AsWrittenCornerAfterMPer(c);
  }
}
