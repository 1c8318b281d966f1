/** src/camera/mod.rs: the older first-person `Camera`, which keeps its own
    front and up vectors and moves 2.5 units per second. The key states and
    the frame time the source reads from the window and the clock are
    parameters. */
module CameraLegacy {
  import opened Matrix
  import opened Vectors
  import opened Math
  import opened Transforms
  import opened CameraMotion

  /** `let sensitivity = 0.1`. */
  const Sensitivity: real := 0.1

  /** `2.5 * dt`, the distance of one frame. */
  const Speed: real := 2.5

  /** The six key checks of `update`, in the source's order: W and S along
      front, A and D along `front.cross(up)`, Space and LeftShift along up. */
  function Steps(keys: Keys, front: Vec3, up: Vec3): seq<Step> {
    [Step(keys.w, true, front), Step(keys.s, false, front),
     Step(keys.a, false, CrossProduct(front, up)), Step(keys.d, true, CrossProduct(front, up)),
     Step(keys.space, true, up), Step(keys.leftShift, false, up)]
  }

  /** The position after the key checks. */
  function Moved(p: Vec3, keys: Keys, front: Vec3, up: Vec3, k: real): Vec3 {
    Walk(p, Steps(keys, front, up), k)
  }

  /** The direction `mouse_update` builds from the angles, before normalizing:
      (cos yaw · cos pitch, sin pitch, sin yaw · cos pitch), angles in radians. */
  function Heading(lib: Libm, yaw: real, pitch: real): Vec3 {
    var y, p := Radian(lib, yaw), Radian(lib, pitch);
    FromArray([lib.cos(y) * lib.cos(p), lib.sin(p), lib.sin(y) * lib.cos(p)])
  }

  /** `front.normalize()` of that direction. */
  function FrontOf(lib: Libm, yaw: real, pitch: real): Vec3 {
    Normalize(lib, Heading(lib, yaw, pitch))
  }

  /** The six `if` statements of `update`. */
  method KeyChecks(pos: Vec3, keys: Keys, front: Vec3, up: Vec3, k: real) returns (p: Vec3)
    ensures p == Moved(pos, keys, front, up, k)
  {
    WalkSix(pos, Step(keys.w, true, front), Step(keys.s, false, front),
            Step(keys.a, false, CrossProduct(front, up)), Step(keys.d, true, CrossProduct(front, up)),
            Step(keys.space, true, up), Step(keys.leftShift, false, up), k);
    p := pos;
    if keys.w {
      p := Sum(p, Scaled(front, k));
    }
    if keys.s {
      p := Difference(p, Scaled(front, k));
    }
    if keys.a {
      p := Difference(p, Scaled(CrossProduct(front, up), k));
    }
    if keys.d {
      p := Sum(p, Scaled(CrossProduct(front, up), k));
    }
    if keys.space {
      p := Sum(p, Scaled(up, k));
    }
    if keys.leftShift {
      p := Difference(p, Scaled(up, k));
    }
  }

  /** Opposite keys held together cancel, so balanced keys leave the position. */
  lemma BalancedKeysKeepPosition(p: Vec3, keys: Keys, front: Vec3, up: Vec3, k: real)
    requires Balanced(keys)
    ensures Moved(p, keys, front, up, k) == p
  {
    var right := CrossProduct(front, up);
    WalkSix(p, Step(keys.w, true, front), Step(keys.s, false, front),
            Step(keys.a, false, right), Step(keys.d, true, right),
            Step(keys.space, true, up), Step(keys.leftShift, false, up), k);
    PairCancels(p, keys.w, front, k);
    PairCancelsReversed(p, keys.a, right, k);
    PairCancels(p, keys.space, up, k);
  }

  /** A single held key moves the position by ±k times its direction; the
      strafing direction is `front.cross(up)`, not normalized. */
  lemma OneKeyMoves(p: Vec3, keys: Keys, front: Vec3, up: Vec3, k: real)
    ensures keys == Keys(true, false, false, false, false, false, keys.leftAlt) ==>
      Moved(p, keys, front, up, k) == Sum(p, Scaled(front, k))
    ensures keys == Keys(false, true, false, false, false, false, keys.leftAlt) ==>
      Moved(p, keys, front, up, k) == Difference(p, Scaled(front, k))
    ensures keys == Keys(false, false, true, false, false, false, keys.leftAlt) ==>
      Moved(p, keys, front, up, k) == Difference(p, Scaled(CrossProduct(front, up), k))
    ensures keys == Keys(false, false, false, true, false, false, keys.leftAlt) ==>
      Moved(p, keys, front, up, k) == Sum(p, Scaled(CrossProduct(front, up), k))
    ensures keys == Keys(false, false, false, false, true, false, keys.leftAlt) ==>
      Moved(p, keys, front, up, k) == Sum(p, Scaled(up, k))
    ensures keys == Keys(false, false, false, false, false, true, keys.leftAlt) ==>
      Moved(p, keys, front, up, k) == Difference(p, Scaled(up, k))
  {
    var right := CrossProduct(front, up);
    WalkSix(p, Step(keys.w, true, front), Step(keys.s, false, front),
            Step(keys.a, false, right), Step(keys.d, true, right),
            Step(keys.space, true, up), Step(keys.leftShift, false, up), k);
  }

  /** With s² + c² = 1 at both angles, the direction built from them is not
      the zero vector, so with a sound `sqrt` the new front has length 1. */
  lemma FrontIsUnit(lib: Libm, yaw: real, pitch: real)
    requires SqrtSound(lib)
    requires var s, c := lib.sin(Radian(lib, yaw)), lib.cos(Radian(lib, yaw)); s * s + c * c == 1.0
    requires var s, c := lib.sin(Radian(lib, pitch)), lib.cos(Radian(lib, pitch)); s * s + c * c == 1.0
    ensures SquaredNorm(FrontOf(lib, yaw, pitch)) == 1.0
  {
    var h := Heading(lib, yaw, pitch);
    var sy, cy := lib.sin(Radian(lib, yaw)), lib.cos(Radian(lib, yaw));
    var sp, cp := lib.sin(Radian(lib, pitch)), lib.cos(Radian(lib, pitch));
    if sp != 0.0 {
      assert h.data[0][1] != 0.0;
    } else {
      assert cp * cp == 1.0;
      assert cp != 0.0;
      if cy != 0.0 {
        assert h.data[0][0] == cy * cp;
        assert h.data[0][0] != 0.0;
      } else {
        assert sy * sy == 1.0;
        assert h.data[0][2] == sy * cp;
        assert h.data[0][2] != 0.0;
      }
    }
    NormalizeUnit(lib, h);
  }

  class Camera {
    var pos: Vec3
    var front: Vec3
    var up: Vec3
    var lastX: real
    var lastY: real
    var firstMouse: bool
    /** Yaw and pitch in degrees. */
    var yaw: real
    var pitch: real

    /** The pitch stays within the limit that `mouse_update` enforces. */
    predicate PitchInRange()
      reads this
    {
      -89.0 <= pitch <= 89.0
    }

    /** front is the normalized direction of the current angles. */
    predicate FrontFollowsAngles(lib: Libm)
      reads this
    {
      front == FrontOf(lib, yaw, pitch)
    }

    /** `Camera::new(pos, front, up)`. */
    constructor (pos: Vec3, front: Vec3, up: Vec3)
      ensures this.pos == pos && this.front == front && this.up == up
      ensures lastX == 0.0 && lastY == 0.0 && firstMouse
      ensures yaw == -90.0 && pitch == 0.0
      ensures PitchInRange()
    {
      this.pos := pos;
      this.front := front;
      this.up := up;
      lastX := 0.0;
      lastY := 0.0;
      firstMouse := true;
      yaw := -90.0;
      pitch := 0.0;
    }

    /** `update`: each held key moves the position by ±direction · 2.5 · dt. */
    method Update(keys: Keys, dt: real)
      modifies this
      ensures pos == Moved(old(pos), keys, front, up, Distance(Speed, dt))
      ensures front == old(front) && up == old(up) && yaw == old(yaw) && pitch == old(pitch)
      ensures lastX == old(lastX) && lastY == old(lastY) && firstMouse == old(firstMouse)
    {
      var moved := KeyChecks(pos, keys, front, up, Distance(Speed, dt));
      pos := moved;
    }

    /** `mouse_update(xpos, ypos)`: the first call takes the cursor as the last
        position; the offsets, scaled by 0.1, turn yaw and pitch, the pitch is
        limited, and front is rebuilt from the angles. */
    method MouseUpdate(lib: Libm, xpos: real, ypos: real)
      modifies this
      ensures lastX == xpos && lastY == ypos && !firstMouse
      ensures yaw == old(yaw) + Turn(xpos - (if old(firstMouse) then xpos else old(lastX)), Sensitivity)
      ensures pitch == ClampPitch(old(pitch) + Turn((if old(firstMouse) then ypos else old(lastY)) - ypos, Sensitivity))
      ensures old(firstMouse) && old(PitchInRange()) ==> yaw == old(yaw) && pitch == old(pitch)
      ensures PitchInRange()
      ensures FrontFollowsAngles(lib)
      ensures pos == old(pos) && up == old(up)
    {
      if firstMouse {
        lastX := xpos;
        lastY := ypos;
        firstMouse := false;
      }
      var xoffset := xpos - lastX;
      var yoffset := lastY - ypos;
      lastX := xpos;
      lastY := ypos;
      xoffset := Turn(xoffset, Sensitivity);
      yoffset := Turn(yoffset, Sensitivity);
      yaw := yaw + xoffset;
      pitch := pitch + yoffset;
      if pitch > 89.0 {
        pitch := 89.0;
      }
      if pitch < -89.0 {
        pitch := -89.0;
      }
      var heading := FrontOf(lib, yaw, pitch);
      front := heading;
    }

    /** `view_matrix()`: `look_at(pos, pos + front, up)`; nothing changes. Its
        last column holds -pos and its bottom row is (0, 0, 0, 1). */
    method ViewMatrix(lib: Libm) returns (r: Mat)
      ensures r == LookAt(lib, pos, Sum(pos, front), up)
      ensures r.data[0][3] == -X(pos) && r.data[1][3] == -Y(pos) && r.data[2][3] == -Z(pos)
      ensures r.data[3] == [0.0, 0.0, 0.0, 1.0]
    {
      var p, f, u := pos, front, up;
      r := LookAt(lib, p, Sum(p, f), u);
      LookAtLayout(lib, p, Sum(p, f), u);
    }
  }
}
