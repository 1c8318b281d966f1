/** src/camera/god_camera.rs: the orbiting `GodCamera`, which looks at the
    origin from a distance 2^x and turns while the left mouse button is held.
    The button state the source polls is a parameter. */
module CameraGod {
  import opened Matrix
  import opened Vectors
  import opened Math
  import opened Transforms
  import opened CameraMotion

  /** The homogeneous origin `Vec4::from([0.0, 0.0, 0.0, 1.0])`. */
  function Origin(): Vec4 {
    FromArray([0.0, 0.0, 0.0, 1.0])
  }

  /** `2.0_f32.powf(self.x)`, the distance to the target. */
  function Zoom(lib: Libm, x: real): real {
    lib.powf(2.0, x)
  }

  /** `yoffset / 2.0 * self.scl`, the change of the zoom exponent for one scroll. */
  function ZoomStep(yoffset: real, scl: real): real {
    yoffset / 2.0 * scl
  }

  /** The two turns of `update`: pitch about x, then -yaw about y. */
  function Turned(lib: Libm, v: Mat, yaw: real, pitch: real): (r: Mat)
    requires v.M == 1 && v.N == 4
    ensures HasComponents(r, 4)
  {
    Product(Product(v, Rotate3X(lib, Radian(lib, pitch))), Rotate3Y(lib, Radian(lib, -yaw)))
  }

  /** `pos` as `update` writes it: the homogeneous origin times the translation
      by (0, 0, 2^x), then turned. */
  function EyeAsWritten(lib: Libm, x: real, yaw: real, pitch: real): (r: Mat)
    ensures HasComponents(r, 4)
  {
    Turned(lib, Product(Origin(), Translate3(FromArray([0.0, 0.0, Zoom(lib, x)]))), yaw, pitch)
  }

  /** `up` of `update`: (0, 1, 0, 1) turned. */
  function UpOf(lib: Libm, yaw: real, pitch: real): (r: Mat)
    ensures HasComponents(r, 4)
  {
    Turned(lib, FromArray([0.0, 1.0, 0.0, 1.0]), yaw, pitch)
  }

  /** The view `update` computes as written: `look_at(pos.xyz(), Vec3::new(), up.xyz())`. */
  function ViewAsWritten(lib: Libm, x: real, yaw: real, pitch: real): (r: Mat)
    ensures r.M == 4 && r.N == 4
  {
    LookAt(lib, XYZ(EyeAsWritten(lib, x, yaw, pitch)), New(1, 3), XYZ(UpOf(lib, yaw, pitch)))
  }

  /** The eye the orbit is meant to have: the point (0, 0, 2^x) itself, turned. */
  function Eye(lib: Libm, x: real, yaw: real, pitch: real): (r: Mat)
    ensures HasComponents(r, 4)
  {
    Turned(lib, FromArray([0.0, 0.0, Zoom(lib, x), 1.0]), yaw, pitch)
  }

  /** The view with the corrected eye. */
  function View(lib: Libm, x: real, yaw: real, pitch: real): (r: Mat)
    ensures r.M == 4 && r.N == 4
  {
    LookAt(lib, XYZ(Eye(lib, x, yaw, pitch)), New(1, 3), XYZ(UpOf(lib, yaw, pitch)))
  }

  /** The view matrix with only the bottom-right entry 1. */
  function Degenerate(): (r: Mat)
    ensures r.M == 4 && r.N == 4
  {
    From(4, 4, [[0.0, 0.0, 0.0, 0.0], [0.0, 0.0, 0.0, 0.0], [0.0, 0.0, 0.0, 0.0], [0.0, 0.0, 0.0, 1.0]])
  }

  // ---------------------------------------------------------------------------
  // The eye as written
  // ---------------------------------------------------------------------------

  /** A row vector times a 4×4 matrix whose bottom row is (0, 0, 0, 1): the
      homogeneous origin stays where it is. */
  lemma AffineKeepsOrigin(m: Mat)
    requires m.M == 4 && m.N == 4 && m.data[3] == [0.0, 0.0, 0.0, 1.0]
    ensures Product(Origin(), m) == Origin()
  {
    var o := Origin();
    ProductEntry4(o, m, 0, 0);
    ProductEntry4(o, m, 0, 1);
    ProductEntry4(o, m, 0, 2);
    ProductEntry4(o, m, 0, 3);
    ComponentsDetermine(Product(o, m), o);
  }

  /** The translation and both turns keep the homogeneous origin, so the eye
      `update` computes is the origin whatever x, yaw and pitch are. */
  lemma EyeIsOrigin(lib: Libm, x: real, yaw: real, pitch: real)
    ensures XYZ(EyeAsWritten(lib, x, yaw, pitch)) == New(1, 3)
  {
    var t := Translate3(FromArray([0.0, 0.0, Zoom(lib, x)]));
    var rx, ry := Rotate3X(lib, Radian(lib, pitch)), Rotate3Y(lib, Radian(lib, -yaw));
    AffineKeepsOrigin(t);
    AffineKeepsOrigin(rx);
    AffineKeepsOrigin(ry);
    ComponentsDetermine(XYZ(EyeAsWritten(lib, x, yaw, pitch)), New(1, 3));
  }

  /** A vector with all components 0 normalizes to all 0, whatever its norm is. */
  lemma NormalizeOfZero(lib: Libm, v: Vec3)
    requires X(v) == 0.0 && Y(v) == 0.0 && Z(v) == 0.0
    ensures Normalize(lib, v) == New(1, 3)
  {
    ComponentsDetermine(Normalize(lib, v), New(1, 3));
  }

  /** With the eye on the target at the origin every look_at axis is 0, so
      only the bottom-right 1 is left. */
  lemma LookAtFromOrigin(lib: Libm, up: Vec3)
    ensures LookAt(lib, New(1, 3), New(1, 3), up) == Degenerate()
  {
    var zero := New(1, 3);
    NormalizeOfZero(lib, Difference(zero, zero));
    assert AxisZ(lib, zero, zero) == zero;
    NormalizeOfZero(lib, CrossProduct(up, zero));
    assert AxisX(lib, zero, zero, up) == zero;
    ComponentsDetermine(AxisY(lib, zero, zero, up), zero);
    LookAtLayout(lib, zero, zero, up);
    assert LookAt(lib, zero, zero, up).data == Degenerate().data;
  }

  /** The view `update` stores is therefore the same degenerate matrix for
      every x, yaw and pitch: neither scrolling nor dragging changes it. */
  lemma ViewAsWrittenIsDegenerate(lib: Libm, x: real, yaw: real, pitch: real)
    ensures ViewAsWritten(lib, x, yaw, pitch) == Degenerate()
  {
    EyeIsOrigin(lib, x, yaw, pitch);
    LookAtFromOrigin(lib, XYZ(UpOf(lib, yaw, pitch)));
  }

  /** Two cameras that differ in zoom and angles see the same as written. */
  lemma ViewAsWrittenIgnoresState(lib: Libm, x1: real, yaw1: real, pitch1: real, x2: real, yaw2: real, pitch2: real)
    ensures ViewAsWritten(lib, x1, yaw1, pitch1) == ViewAsWritten(lib, x2, yaw2, pitch2)
  {
    ViewAsWrittenIsDegenerate(lib, x1, yaw1, pitch1);
    ViewAsWrittenIsDegenerate(lib, x2, yaw2, pitch2);
  }

  // ---------------------------------------------------------------------------
  // The corrected eye
  // ---------------------------------------------------------------------------

  /** Turned by angles whose sine and cosine are 0 and 1, the corrected eye is
      (0, 0, 2^x): the camera sits 2^x in front of the target. */
  lemma EyeAtZeroAngles(lib: Libm, x: real, yaw: real, pitch: real)
    requires lib.sin(Radian(lib, pitch)) == 0.0 && lib.cos(Radian(lib, pitch)) == 1.0
    requires lib.sin(Radian(lib, -yaw)) == 0.0 && lib.cos(Radian(lib, -yaw)) == 1.0
    ensures XYZ(Eye(lib, x, yaw, pitch)) == FromArray([0.0, 0.0, Zoom(lib, x)])
  {
    var v := FromArray([0.0, 0.0, Zoom(lib, x), 1.0]);
    var rx, ry := Rotate3X(lib, Radian(lib, pitch)), Rotate3Y(lib, Radian(lib, -yaw));
    var a := Product(v, rx);
    ProductEntry4(v, rx, 0, 0);
    ProductEntry4(v, rx, 0, 1);
    ProductEntry4(v, rx, 0, 2);
    ProductEntry4(v, rx, 0, 3);
    ProductEntry4(a, ry, 0, 0);
    ProductEntry4(a, ry, 0, 1);
    ProductEntry4(a, ry, 0, 2);
    ComponentsDetermine(XYZ(Eye(lib, x, yaw, pitch)), FromArray([0.0, 0.0, Zoom(lib, x)]));
  }

  /** The corrected eye's components, turned by pitch then yaw. */
  lemma EyeComponents(lib: Libm, x: real, yaw: real, pitch: real)
    ensures var e, d, sp, cp, sy, cy := Eye(lib, x, yaw, pitch), Zoom(lib, x),
                lib.sin(Radian(lib, pitch)), lib.cos(Radian(lib, pitch)),
                lib.sin(Radian(lib, -yaw)), lib.cos(Radian(lib, -yaw));
      X(e) == -(d * cp) * sy && Y(e) == d * sp && Z(e) == d * cp * cy
  {
    var v := FromArray([0.0, 0.0, Zoom(lib, x), 1.0]);
    var rx, ry := Rotate3X(lib, Radian(lib, pitch)), Rotate3Y(lib, Radian(lib, -yaw));
    var a := Product(v, rx);
    ProductEntry4(v, rx, 0, 0);
    ProductEntry4(v, rx, 0, 1);
    ProductEntry4(v, rx, 0, 2);
    ProductEntry4(v, rx, 0, 3);
    ProductEntry4(a, ry, 0, 0);
    ProductEntry4(a, ry, 0, 1);
    ProductEntry4(a, ry, 0, 2);
  }

  /** (d·c·s')² + (d·s)² + (d·c·c')² is d² when s² + c² and s'² + c'² are 1. */
  lemma OrbitRadius(d: real, s: real, c: real, s2: real, c2: real)
    requires s * s + c * c == 1.0 && s2 * s2 + c2 * c2 == 1.0
    ensures (-(d * c) * s2) * (-(d * c) * s2) + (d * s) * (d * s) + (d * c * c2) * (d * c * c2) == d * d
  {
    calc {
      (-(d * c) * s2) * (-(d * c) * s2) + (d * s) * (d * s) + (d * c * c2) * (d * c * c2);
      (d * c) * (d * c) * (s2 * s2 + c2 * c2) + (d * s) * (d * s);
      (d * c) * (d * c) + (d * s) * (d * s);
      d * d * (s * s + c * c);
    }
  }

  /** When sine and cosine satisfy s² + c² = 1 at both angles, the corrected
      eye is exactly 2^x from the target, for every yaw and pitch. */
  lemma EyeOnOrbit(lib: Libm, x: real, yaw: real, pitch: real)
    requires var s, c := lib.sin(Radian(lib, pitch)), lib.cos(Radian(lib, pitch)); s * s + c * c == 1.0
    requires var s, c := lib.sin(Radian(lib, -yaw)), lib.cos(Radian(lib, -yaw)); s * s + c * c == 1.0
    ensures var e := XYZ(Eye(lib, x, yaw, pitch)); Dot3(e, e) == Zoom(lib, x) * Zoom(lib, x)
  {
    var e := XYZ(Eye(lib, x, yaw, pitch));
    EyeComponents(lib, x, yaw, pitch);
    OrbitRadius(Zoom(lib, x), lib.sin(Radian(lib, pitch)), lib.cos(Radian(lib, pitch)),
                lib.sin(Radian(lib, -yaw)), lib.cos(Radian(lib, -yaw)));
  }

  // ---------------------------------------------------------------------------
  // The camera
  // ---------------------------------------------------------------------------

  class GodCamera {
    var viewMatrix: Mat
    /** The zoom exponent: the eye is 2^x from the origin. */
    var x: real
    /** Yaw and pitch in degrees. */
    var yaw: real
    var pitch: real
    var sen: real
    var scl: real
    var moveCamera: bool
    var lastX: real
    var lastY: real

    /** The pitch stays within the limit that `mouse_move` enforces. */
    predicate PitchInRange()
      reads this
    {
      -89.0 <= pitch <= 89.0
    }

    /** The stored view is the one `update` computes, as written, from the
        current zoom and angles. */
    predicate ViewIsCurrent(lib: Libm)
      reads this
    {
      viewMatrix == ViewAsWritten(lib, x, yaw, pitch)
    }

    /** The stored view is the intended orbit view of the current zoom and
        angles. */
    predicate IntendedViewIsCurrent(lib: Libm)
      reads this
    {
      viewMatrix == View(lib, x, yaw, pitch)
    }

    /** `GodCamera::new(x, sen, scl)`. */
    constructor (x: real, sen: real, scl: real)
      ensures this.x == x && this.sen == sen && this.scl == scl
      ensures viewMatrix == Identity(4) && yaw == 0.0 && pitch == 0.0
      ensures !moveCamera && lastX == 0.0 && lastY == 0.0
      ensures PitchInRange()
    {
      viewMatrix := Identity(4);
      this.x := x;
      yaw := 0.0;
      pitch := 0.0;
      this.sen := sen;
      this.scl := scl;
      moveCamera := false;
      lastX := 0.0;
      lastY := 0.0;
    }

    /** `view_matrix()`: the stored matrix; nothing changes. */
    method ViewMatrix() returns (r: Mat)
      ensures r == viewMatrix
    {
      r := viewMatrix;
    }

    /** `update` as written: the left button decides whether the mouse turns
        the camera, and the view is recomputed from an eye that is always the
        origin, so the stored view is always the degenerate matrix. */
    method Update(lib: Libm, leftPressed: bool)
      modifies this
      ensures moveCamera == leftPressed
      ensures x == old(x) && yaw == old(yaw) && pitch == old(pitch) && sen == old(sen) && scl == old(scl)
      ensures lastX == old(lastX) && lastY == old(lastY)
      ensures ViewIsCurrent(lib)
      ensures viewMatrix == Degenerate()
    {
      moveCamera := leftPressed;
      var view := ViewAsWritten(lib, x, yaw, pitch);
      ViewAsWrittenIsDegenerate(lib, x, yaw, pitch);
      viewMatrix := view;
    }

    /** `update` with the evidently intended eye, at distance 2^x from the
        target and turned by pitch and yaw. */
    method UpdateIntended(lib: Libm, leftPressed: bool)
      modifies this
      ensures moveCamera == leftPressed
      ensures x == old(x) && yaw == old(yaw) && pitch == old(pitch) && sen == old(sen) && scl == old(scl)
      ensures lastX == old(lastX) && lastY == old(lastY)
      ensures IntendedViewIsCurrent(lib)
    {
      moveCamera := leftPressed;
      var view := View(lib, x, yaw, pitch);
      viewMatrix := view;
    }

    /** `mouse_move(xpos, ypos)`: without the button only the last cursor
        position is recorded; with it the offsets turn yaw and pitch and the
        pitch is limited. */
    method MouseMove(xpos: real, ypos: real)
      modifies this
      ensures lastX == xpos && lastY == ypos
      ensures viewMatrix == old(viewMatrix) && x == old(x) && sen == old(sen) && scl == old(scl)
      ensures moveCamera == old(moveCamera)
      ensures !old(moveCamera) ==> yaw == old(yaw) && pitch == old(pitch)
      ensures old(moveCamera) ==> yaw == old(yaw) + Turn(xpos - old(lastX), sen)
      ensures old(moveCamera) ==> pitch == ClampPitch(old(pitch) + Turn(old(lastY) - ypos, sen))
      ensures old(moveCamera) ==> PitchInRange()
      ensures old(PitchInRange()) ==> PitchInRange()
    {
      if !moveCamera {
        lastX := xpos;
        lastY := ypos;
        return;
      }
      var xoffset := xpos - lastX;
      var yoffset := lastY - ypos;
      lastX := xpos;
      lastY := ypos;
      yaw := yaw + Turn(xoffset, sen);
      pitch := pitch + Turn(yoffset, sen);
      if pitch > 89.0 {
        pitch := 89.0;
      }
      if pitch < -89.0 {
        pitch := -89.0;
      }
    }

    /** `mouse_scroll(_, yoffset)`: the zoom exponent drops by yoffset / 2 · scl;
        the horizontal offset is ignored and nothing else changes. */
    method MouseScroll(xoffset: real, yoffset: real)
      modifies this
      ensures x == old(x) - ZoomStep(yoffset, scl)
      ensures viewMatrix == old(viewMatrix) && yaw == old(yaw) && pitch == old(pitch)
      ensures sen == old(sen) && scl == old(scl) && moveCamera == old(moveCamera)
      ensures lastX == old(lastX) && lastY == old(lastY)
    {
      x := x - ZoomStep(yoffset, scl);
    }
  }

  /** Scrolling by y and then by -y brings the zoom exponent back. */
  lemma ScrollUndone(x: real, scl: real, y: real)
    ensures (x - ZoomStep(y, scl)) - ZoomStep(-y, scl) == x
  {
  }
}
