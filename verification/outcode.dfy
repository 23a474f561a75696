/** The 6-bit region code of `outcodePerspective` (scripts/renderer.js): a
    homogeneous point is classified against the canonical perspective view
    volume x, y in [z, -z], z in [-1, zmin], with a tolerance of FLOAT_EPSILON
    on every plane. */
module Outcode {
  import opened Algebra
  import opened Transforms

  const LEFT: int := 32
  const RIGHT: int := 16
  const BOTTOM: int := 8
  const TOP: int := 4
  const FAR: int := 2
  const NEAR: int := 1
  const FLOAT_EPSILON: real := 0.000001

  /** Bit `bit` (a power of two) is set in `code`. */
  predicate HasBit(code: int, bit: int)
    requires bit > 0
  {
    (code / bit) % 2 == 1
  }

  /** The tests of the source, one per bit. Of each pair only the first
      test is made when it succeeds (the source's `else if`). */
  predicate LeftOf(p: Vec4) { p.x < p.z - FLOAT_EPSILON }
  predicate RightOf(p: Vec4) { p.x > -p.z + FLOAT_EPSILON }
  predicate Below(p: Vec4) { p.y < p.z - FLOAT_EPSILON }
  predicate Above(p: Vec4) { p.y > -p.z + FLOAT_EPSILON }
  predicate BeyondFar(p: Vec4) { p.z < -1.0 - FLOAT_EPSILON }
  predicate BeforeNear(p: Vec4, zMin: real) { p.z > zMin + FLOAT_EPSILON }

  /** The canonical volume widened by FLOAT_EPSILON on every side. */
  predicate InsideFrustum(p: Vec4, zMin: real) {
    && p.z - FLOAT_EPSILON <= p.x <= -p.z + FLOAT_EPSILON
    && p.z - FLOAT_EPSILON <= p.y <= -p.z + FLOAT_EPSILON
    && -1.0 - FLOAT_EPSILON <= p.z <= zMin + FLOAT_EPSILON
  }

  /** One of a pair of bits: `first` when its test holds, else `second` when
      its test holds, else nothing. */
  function Pick(firstTest: bool, first: int, secondTest: bool, second: int): int {
    if firstTest then first else if secondTest then second else 0
  }

  /** `outcodePerspective(vertex, z_min)`. */
  function OutcodePerspective(p: Vec4, zMin: real): (code: int)
    ensures 0 <= code < 64
    ensures HasBit(code, LEFT) <==> LeftOf(p)
    ensures HasBit(code, RIGHT) <==> !LeftOf(p) && RightOf(p)
    ensures HasBit(code, BOTTOM) <==> Below(p)
    ensures HasBit(code, TOP) <==> !Below(p) && Above(p)
    ensures HasBit(code, FAR) <==> BeyondFar(p)
    ensures HasBit(code, NEAR) <==> !BeyondFar(p) && BeforeNear(p, zMin)
    ensures code == 0 <==> InsideFrustum(p, zMin)
  {
    Pick(LeftOf(p), LEFT, RightOf(p), RIGHT)
    + Pick(Below(p), BOTTOM, Above(p), TOP)
    + Pick(BeyondFar(p), FAR, BeforeNear(p, zMin), NEAR)
  }

  /** A left/right, a bottom/top and a far/near bit are never set together. */
  lemma OutcodePairsExclusive(p: Vec4, zMin: real)
    ensures var code := OutcodePerspective(p, zMin);
      && !(HasBit(code, LEFT) && HasBit(code, RIGHT))
      && !(HasBit(code, BOTTOM) && HasBit(code, TOP))
      && !(HasBit(code, FAR) && HasBit(code, NEAR))
  {
  }

  /** A point on a boundary plane of the closed canonical volume, or inside
      it, gets no bit at all. */
  lemma ClosedFrustumInside(p: Vec4, zMin: real)
    requires p.z <= p.x <= -p.z && p.z <= p.y <= -p.z && -1.0 <= p.z <= zMin
    ensures OutcodePerspective(p, zMin) == 0
  {
  }

  /** A point more than FLOAT_EPSILON beyond any of the six planes gets a
      non-zero code. */
  lemma OutsideHasBit(p: Vec4, zMin: real)
    requires || p.x < p.z - FLOAT_EPSILON || p.x > -p.z + FLOAT_EPSILON
             || p.y < p.z - FLOAT_EPSILON || p.y > -p.z + FLOAT_EPSILON
             || p.z < -1.0 - FLOAT_EPSILON || p.z > zMin + FLOAT_EPSILON
    ensures OutcodePerspective(p, zMin) != 0
  {
  }

  /** 0 < near <= far puts the canonical near plane -near/far in [-1, 0). */
  lemma NearPlaneRange(near: real, far: real)
    requires 0.0 < near <= far
    ensures -1.0 <= -near / far < 0.0
  {
    assert near / far <= 1.0 by {
      assert (near / far) * far == near;
    }
    assert near / far > 0.0;
  }

  /** With the true window centre, the view window's corners are classified
      inside the canonical volume whose near plane is zmin = -near/far. */
  lemma WindowCornersInside(c: Clip)
    requires 0.0 < c.near <= c.far && ScaleDefined(c)
    ensures
      var q := Apply(MPer(), Apply(PerspectiveScale(c).value, Apply(ShearToAxis(WindowCenter(c)).value, Vec4(c.right, c.top, -c.near, 1.0))));
      OutcodePerspective(q, -c.near / c.far) == 0
    ensures
      var q := Apply(MPer(), Apply(PerspectiveScale(c).value, Apply(ShearToAxis(WindowCenter(c)).value, Vec4(c.left, c.bottom, -c.near, 1.0))));
      OutcodePerspective(q, -c.near / c.far) == 0
  {
    WindowCornersOntoFrustum(c);
    NearPlaneRange(c.near, c.far);
    MPerApply(Apply(PerspectiveScale(c).value, Apply(ShearToAxis(WindowCenter(c)).value, Vec4(c.right, c.top, -c.near, 1.0))));
    MPerApply(Apply(PerspectiveScale(c).value, Apply(ShearToAxis(WindowCenter(c)).value, Vec4(c.left, c.bottom, -c.near, 1.0))));
  }

  /** With the source's CW, the top-right corner of the window
      clip = [-2, 2, -1, 1, 1, 3] is classified above the volume (TOP). */
  lemma WindowCornerAsWrittenAbove()
    ensures
      var c := Clip(-2.0, 2.0, -1.0, 1.0, 1.0, 3.0);
      var q := Apply(MPer(), Apply(PerspectiveScale(c).value, Apply(ShearToAxis(WindowCenterAsWritten(c)).value, Vec4(c.right, c.top, -c.near, 1.0))));
      OutcodePerspective(q, -c.near / c.far) == TOP
  {
    var c := Clip(-2.0, 2.0, -1.0, 1.0, 1.0, 3.0);
    var k := Apply(PerspectiveScale(c).value, Apply(ShearToAxis(WindowCenterAsWritten(c)).value, Vec4(c.right, c.top, -c.near, 1.0)));
    AsWrittenCornerExample();
    MPerApply(k);
    assert -c.near / c.far == -1.0 / 3.0;
    OutcodeOfCorner(Apply(MPer(), k), -1.0 / 3.0);
  }

  lemma AsWrittenCornerExample()
    ensures
      var c := Clip(-2.0, 2.0, -1.0, 1.0, 1.0, 3.0);
      Apply(PerspectiveScale(c).value, Apply(ShearToAxis(WindowCenterAsWritten(c)).value, Vec4(c.right, c.top, -c.near, 1.0)))
      == Vec4(1.0 / 3.0, 0.5, -1.0 / 3.0, 1.0)
  {
    var c := Clip(-2.0, 2.0, -1.0, 1.0, 1.0, 3.0);
    AsWrittenShearCorner(c);
    PerspectiveScaleApply(c, Vec4(2.0, 1.5, -1.0, 1.0));
  }

  lemma OutcodeOfCorner(q: Vec4, zMin: real)
    requires q == Vec4(1.0 / 3.0, 0.5, -1.0 / 3.0, -(-1.0 / 3.0)) && zMin == -1.0 / 3.0
    ensures OutcodePerspective(q, zMin) == TOP
  {
  }
}
