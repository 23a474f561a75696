/** The camera commands of scripts/renderer.js as pure functions on the view:
    each moves PRP and SRP by the same unit step, so the viewing direction,
    the up vector and the window are untouched. */
module Camera {
  import opened Algebra
  import opened Transforms

  /** `scene.view`: projection and scene reference points, up vector, window. */
  datatype View = View(prp: Vec3, srp: Vec3, vup: Vec3, clip: Clip)

  /** The step of every command (`translationAmount = 1`). */
  const STEP: real := 1.0

  /** Moves PRP and SRP together by d; nothing else changes. */
  function Shift(v: View, d: Vec3): (r: View)
    ensures r.prp == Add(v.prp, d) && r.srp == Add(v.srp, d)
    ensures Sub(r.srp, r.prp) == Sub(v.srp, v.prp)
    ensures r.vup == v.vup && r.clip == v.clip
  {
    View(Add(v.prp, d), Add(v.srp, d), v.vup, v.clip)
  }

  /** `moveLeft`: prp.x and srp.x grow by one. */
  function MoveLeft(v: View): (r: View)
    ensures r == Shift(v, Vec3(STEP, 0.0, 0.0))
  {
    var prp, srp := v.prp, v.srp;
    v.(prp := prp.(x := prp.x + STEP), srp := srp.(x := srp.x + STEP))
  }

  /** `moveRight`: prp.x and srp.x shrink by one. */
  function MoveRight(v: View): (r: View)
    ensures r == Shift(v, Vec3(-STEP, 0.0, 0.0))
  {
    var prp, srp := v.prp, v.srp;
    v.(prp := prp.(x := prp.x - STEP), srp := srp.(x := srp.x - STEP))
  }

  /** `moveForward`: prp.z and srp.z grow by one. */
  function MoveForward(v: View): (r: View)
    ensures r == Shift(v, Vec3(0.0, 0.0, STEP))
  {
    var prp, srp := v.prp, v.srp;
    v.(prp := prp.(z := prp.z + STEP), srp := srp.(z := srp.z + STEP))
  }

  /** `moveBackward`: prp.z and srp.z shrink by one. */
  function MoveBackward(v: View): (r: View)
    ensures r == Shift(v, Vec3(0.0, 0.0, -STEP))
  {
    var prp, srp := v.prp, v.srp;
    v.(prp := prp.(z := prp.z - STEP), srp := srp.(z := srp.z - STEP))
  }

  /** Left and right undo each other, as do forward and backward. */
  lemma MovesUndo(v: View)
    ensures MoveRight(MoveLeft(v)) == v && MoveLeft(MoveRight(v)) == v
    ensures MoveBackward(MoveForward(v)) == v && MoveForward(MoveBackward(v)) == v
  {
  }

  /** Shifting the camera by d changes neither the view frame nor where a
      point moved along with it ends up: the shifted view's matrix sends
      q + d exactly where the original sends q. */
  lemma ShiftKeepsPicture(v: View, d: Vec3, dop: Vec3, kn: real, ku: real, q: Vec3)
    requires dop.z != 0.0 && ScaleDefined(v.clip)
    ensures
      var w := Shift(v, d);
      Apply(PerspectiveWith(w.prp, w.srp, w.vup, w.clip, dop, kn, ku).value, Point(Add(q, d))) ==
      Apply(PerspectiveWith(v.prp, v.srp, v.vup, v.clip, dop, kn, ku).value, Point(q))
  {
    ShiftKeepsFrame(v, d, kn, ku);
    ShiftKeepsImage(ViewFrame(v.prp, v.srp, v.vup, kn, ku), v.prp, v.clip, dop, d, q);
  }

  /** The view frame depends on PRP and SRP only through SRP - PRP. */
  lemma ShiftKeepsFrame(v: View, d: Vec3, kn: real, ku: real)
    ensures
      var w := Shift(v, d);
      ViewFrame(w.prp, w.srp, w.vup, kn, ku) == ViewFrame(v.prp, v.srp, v.vup, kn, ku)
  {
    var w := Shift(v, d);
    assert Sub(w.prp, w.srp) == Sub(v.prp, v.srp);
  }

  /** For a fixed frame, moving PRP and the point by the same d leaves the image alone. */
  lemma ShiftKeepsImage(f: Frame, prp: Vec3, c: Clip, dop: Vec3, d: Vec3, q: Vec3)
    requires dop.z != 0.0 && ScaleDefined(c)
    ensures
      Apply(PerspectiveOfFrame(f, Add(prp, d), c, dop).value, Point(Add(q, d))) ==
      Apply(PerspectiveOfFrame(f, prp, c, dop).value, Point(q))
  {
    PerspectiveStages(f, Add(prp, d), c, dop, Point(Add(q, d)));
    PerspectiveStages(f, prp, c, dop, Point(q));
    ShiftedTranslate(prp, d, q);
  }

  /** Translating by -(prp + d) after moving q by d is translating by -prp. */
  lemma ShiftedTranslate(prp: Vec3, d: Vec3, q: Vec3)
    ensures
      var p2 := Add(prp, d);
      Apply(Translate(-p2.x, -p2.y, -p2.z), Point(Add(q, d))) == Apply(Translate(-prp.x, -prp.y, -prp.z), Point(q))
  {
    var p2 := Add(prp, d);
    TranslateApply(-p2.x, -p2.y, -p2.z, Point(Add(q, d)));
    TranslateApply(-prp.x, -prp.y, -prp.z, Point(q));
  }

  /** Each of the four moves keeps the picture of every point moved along with it. */
  lemma MovesKeepPicture(v: View, dop: Vec3, kn: real, ku: real, q: Vec3)
    requires dop.z != 0.0 && ScaleDefined(v.clip)
    ensures
      var w := MoveLeft(v);
      Apply(PerspectiveWith(w.prp, w.srp, w.vup, w.clip, dop, kn, ku).value, Point(Add(q, Vec3(STEP, 0.0, 0.0)))) ==
      Apply(PerspectiveWith(v.prp, v.srp, v.vup, v.clip, dop, kn, ku).value, Point(q))
    ensures
      var w := MoveRight(v);
      Apply(PerspectiveWith(w.prp, w.srp, w.vup, w.clip, dop, kn, ku).value, Point(Add(q, Vec3(-STEP, 0.0, 0.0)))) ==
      Apply(PerspectiveWith(v.prp, v.srp, v.vup, v.clip, dop, kn, ku).value, Point(q))
    ensures
      var w := MoveForward(v);
      Apply(PerspectiveWith(w.prp, w.srp, w.vup, w.clip, dop, kn, ku).value, Point(Add(q, Vec3(0.0, 0.0, STEP)))) ==
      Apply(PerspectiveWith(v.prp, v.srp, v.vup, v.clip, dop, kn, ku).value, Point(q))
    ensures
      var w := MoveBackward(v);
      Apply(PerspectiveWith(w.prp, w.srp, w.vup, w.clip, dop, kn, ku).value, Point(Add(q, Vec3(0.0, 0.0, -STEP)))) ==
      Apply(PerspectiveWith(v.prp, v.srp, v.vup, v.clip, dop, kn, ku).value, Point(q))
  {
    ShiftKeepsPicture(v, Vec3(STEP, 0.0, 0.0), dop, kn, ku, q);
    ShiftKeepsPicture(v, Vec3(-STEP, 0.0, 0.0), dop, kn, ku, q);
    ShiftKeepsPicture(v, Vec3(0.0, 0.0, STEP), dop, kn, ku, q);
    ShiftKeepsPicture(v, Vec3(0.0, 0.0, -STEP), dop, kn, ku, q);
  }
}
