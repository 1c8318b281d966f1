/** src/camera/space_camera.rs: the free-flying `SpaceCamera`. The key states
    and the frame time `dt` the source reads from the window and the clock
    are parameters. */
module CameraSpace {
  import opened Matrix
  import opened Vectors
  import opened Math
  import opened Transforms
  import opened CameraMotion

  /** `Vec3::from([0.0, 1.0, 0.0])`, the world up of `update`. */
  function Up(): Vec3 {
    FromArray([0.0, 1.0, 0.0])
  }

  /** The walking direction, `(Vec4::from([0, 0, -1, 1]) * rotate3_y(-radian(yaw))).xyz()`. */
  function Front(lib: Libm, yaw: real): Vec3 {
    XYZ(Product(FromArray([0.0, 0.0, -1.0, 1.0]), Rotate3Y(lib, -Radian(lib, yaw))))
  }

  /** `front.cross(up).normalize()`. */
  function Right(lib: Libm, yaw: real): Vec3 {
    Normalize(lib, CrossProduct(Front(lib, yaw), Up()))
  }

  /** The six key checks of `update`, in the source's order: W and S along
      front, D and A along right, Space and LeftShift along up. */
  function Steps(keys: Keys, front: Vec3, right: Vec3, up: Vec3): seq<Step> {
    [Step(keys.w, true, front), Step(keys.s, false, front),
     Step(keys.d, true, right), Step(keys.a, false, right),
     Step(keys.space, true, up), Step(keys.leftShift, false, up)]
  }

  /** The position after the key checks, with `speed = self.speed * dt` as k. */
  function Moved(p: Vec3, keys: Keys, front: Vec3, right: Vec3, up: Vec3, k: real): Vec3 {
    Walk(p, Steps(keys, front, right, up), k)
  }

  /** The position `update` reaches from p with the keys and the yaw given. */
  function Advanced(lib: Libm, p: Vec3, keys: Keys, yaw: real, k: real): Vec3 {
    Moved(p, keys, Front(lib, yaw), Right(lib, yaw), Up(), k)
  }

  /** A homogeneous point turned by pitch about x, then by -yaw about y:
      `Vec4::from(v) * rotate3_x(radian(pitch)) * rotate3_y(-radian(yaw))`. */
  function Turned(lib: Libm, v: seq<real>, yaw: real, pitch: real): (r: Mat)
    requires |v| == 4
    ensures HasComponents(r, 4)
  {
    Product(Product(FromArray(v), Rotate3X(lib, Radian(lib, pitch))), Rotate3Y(lib, -Radian(lib, yaw)))
  }

  /** The view `update` stores: `look_at(pos, pos + front.xyz(), up.xyz())` with
      front from (0, 0, -0.1, 1) and up from (0, 1, 0, 1), both turned. */
  function ViewOf(lib: Libm, pos: Vec3, yaw: real, pitch: real): (r: Mat)
    ensures r.M == 4 && r.N == 4
  {
    LookAt(lib, pos, Sum(pos, XYZ(Turned(lib, [0.0, 0.0, -0.1, 1.0], yaw, pitch))),
           XYZ(Turned(lib, [0.0, 1.0, 0.0, 1.0], yaw, pitch)))
  }

  /** Holding both keys of a pair cancels, so with balanced keys (none held, or
      opposite keys together) the position comes back unchanged. */
  lemma BalancedKeysKeepPosition(p: Vec3, keys: Keys, front: Vec3, right: Vec3, up: Vec3, k: real)
    requires Balanced(keys)
    ensures Moved(p, keys, front, right, up, k) == p
  {
    WalkSix(p, Step(keys.w, true, front), Step(keys.s, false, front),
            Step(keys.d, true, right), Step(keys.a, false, right),
            Step(keys.space, true, up), Step(keys.leftShift, false, up), k);
    PairCancels(p, keys.w, front, k);
    PairCancels(p, keys.d, right, k);
    PairCancels(p, keys.space, up, k);
  }

  /** A single held key moves the position by ±k times its direction. */
  lemma OneKeyMoves(p: Vec3, keys: Keys, front: Vec3, right: Vec3, up: Vec3, k: real)
    ensures keys == Keys(true, false, false, false, false, false, keys.leftAlt) ==>
      Moved(p, keys, front, right, up, k) == Sum(p, Scaled(front, k))
    ensures keys == Keys(false, true, false, false, false, false, keys.leftAlt) ==>
      Moved(p, keys, front, right, up, k) == Difference(p, Scaled(front, k))
    ensures keys == Keys(false, false, false, true, false, false, keys.leftAlt) ==>
      Moved(p, keys, front, right, up, k) == Sum(p, Scaled(right, k))
    ensures keys == Keys(false, false, true, false, false, false, keys.leftAlt) ==>
      Moved(p, keys, front, right, up, k) == Difference(p, Scaled(right, k))
    ensures keys == Keys(false, false, false, false, true, false, keys.leftAlt) ==>
      Moved(p, keys, front, right, up, k) == Sum(p, Scaled(up, k))
    ensures keys == Keys(false, false, false, false, false, true, keys.leftAlt) ==>
      Moved(p, keys, front, right, up, k) == Difference(p, Scaled(up, k))
  {
    WalkSix(p, Step(keys.w, true, front), Step(keys.s, false, front),
            Step(keys.d, true, right), Step(keys.a, false, right),
            Step(keys.space, true, up), Step(keys.leftShift, false, up), k);
  }

  /** The walking direction and the strafing direction are horizontal. */
  lemma FrontAndRightAreLevel(lib: Libm, yaw: real)
    ensures Y(Front(lib, yaw)) == 0.0
    ensures Y(Right(lib, yaw)) == 0.0
  {
    var v := FromArray([0.0, 0.0, -1.0, 1.0]);
    var rot := Rotate3Y(lib, -Radian(lib, yaw));
    ProductEntry4(v, rot, 0, 1);
    assert rot.data[0][1] == 0.0 && rot.data[2][1] == 0.0 && rot.data[3][1] == 0.0;
    var f := Front(lib, yaw);
    assert Y(CrossProduct(f, Up())) == Z(f) * 0.0 - X(f) * 0.0;
  }

  /** W, S, A and D never change the height: only Space and LeftShift do. */
  lemma WalkingKeepsHeight(lib: Libm, p: Vec3, keys: Keys, yaw: real, k: real)
    requires !keys.space && !keys.leftShift
    ensures Y(Moved(p, keys, Front(lib, yaw), Right(lib, yaw), Up(), k)) == Y(p)
  {
    var front, right, up := Front(lib, yaw), Right(lib, yaw), Up();
    FrontAndRightAreLevel(lib, yaw);
    var p1 := Apply(p, Step(keys.w, true, front), k);
    var p2 := Apply(p1, Step(keys.s, false, front), k);
    var p3 := Apply(p2, Step(keys.d, true, right), k);
    var p4 := Apply(p3, Step(keys.a, false, right), k);
    ApplyKeepsComponent(p, Step(keys.w, true, front), k, 1);
    ApplyKeepsComponent(p1, Step(keys.s, false, front), k, 1);
    ApplyKeepsComponent(p2, Step(keys.d, true, right), k, 1);
    ApplyKeepsComponent(p3, Step(keys.a, false, right), k, 1);
    WalkSix(p, Step(keys.w, true, front), Step(keys.s, false, front),
            Step(keys.d, true, right), Step(keys.a, false, right),
            Step(keys.space, true, up), Step(keys.leftShift, false, up), k);
  }

  /** The six `if` statements of `update`, each moving the position by
      `dir * speed` when its key is held. */
  method KeyChecks(pos: Vec3, keys: Keys, front: Vec3, right: Vec3, up: Vec3, k: real) returns (p: Vec3)
    ensures p == Moved(pos, keys, front, right, up, k)
  {
    WalkSix(pos, Step(keys.w, true, front), Step(keys.s, false, front),
            Step(keys.d, true, right), Step(keys.a, false, right),
            Step(keys.space, true, up), Step(keys.leftShift, false, up), k);
    p := pos;
    if keys.w {
      p := Sum(p, Scaled(front, k));
    }
    if keys.s {
      p := Difference(p, Scaled(front, k));
    }
    if keys.d {
      p := Sum(p, Scaled(right, k));
    }
    if keys.a {
      p := Difference(p, Scaled(right, k));
    }
    if keys.space {
      p := Sum(p, Scaled(up, k));
    }
    if keys.leftShift {
      p := Difference(p, Scaled(up, k));
    }
  }

  class SpaceCamera {
    var pos: Vec3
    /** Yaw and pitch in degrees. */
    var yaw: real
    var pitch: real
    var lastX: real
    var lastY: real
    var firstMouse: bool
    var speed: real
    var sen: real
    var viewMatrix: Mat
    var fixCamera: bool

    /** The pitch stays within the limit that `mouse_move` enforces. */
    predicate PitchInRange()
      reads this
    {
      -89.0 <= pitch <= 89.0
    }

    /** The stored view is the one of the current position and angles. */
    predicate ViewIsCurrent(lib: Libm)
      reads this
    {
      viewMatrix == ViewOf(lib, pos, yaw, pitch)
    }

    /** `SpaceCamera::new(pos, speed, sen)`. */
    constructor (pos: Vec3, speed: real, sen: real)
      ensures this.pos == pos && this.speed == speed && this.sen == sen
      ensures yaw == -90.0 && pitch == 0.0 && lastX == 0.0 && lastY == 0.0
      ensures firstMouse && !fixCamera && viewMatrix == Identity(4)
      ensures PitchInRange()
    {
      this.pos := pos;
      yaw := -90.0;
      pitch := 0.0;
      lastX := 0.0;
      lastY := 0.0;
      firstMouse := true;
      this.speed := speed;
      this.sen := sen;
      viewMatrix := Identity(4);
      fixCamera := false;
    }

    /** `view_matrix()`: the stored matrix; nothing changes. */
    method ViewMatrix() returns (r: Mat)
      ensures r == viewMatrix
    {
      r := viewMatrix;
    }

    /** `update`: LeftAlt freezes the camera and returns at once; otherwise the
        held keys move the position and the view is recomputed from it. */
    method Update(lib: Libm, keys: Keys, dt: real)
      modifies this
      ensures fixCamera == keys.leftAlt
      ensures yaw == old(yaw) && pitch == old(pitch) && lastX == old(lastX) && lastY == old(lastY)
      ensures firstMouse == old(firstMouse) && speed == old(speed) && sen == old(sen)
      ensures keys.leftAlt ==> pos == old(pos) && viewMatrix == old(viewMatrix)
      ensures !keys.leftAlt ==>
        pos == Advanced(lib, old(pos), keys, yaw, Distance(speed, dt))
      ensures !keys.leftAlt ==> ViewIsCurrent(lib)
    {
      fixCamera := keys.leftAlt;
      if fixCamera {
        return;
      }
      var moved := KeyChecks(pos, keys, Front(lib, yaw), Right(lib, yaw), Up(), Distance(speed, dt));
      var view := ViewOf(lib, moved, yaw, pitch);
      pos, viewMatrix := moved, view;
    }

    /** `mouse_move(xpos, ypos)`: frozen, nothing changes; otherwise the first
        call takes the cursor as the last position, the offsets turn yaw and
        pitch, and the pitch is limited. */
    method MouseMove(xpos: real, ypos: real)
      modifies this
      ensures old(fixCamera) ==> unchanged(this)
      ensures pos == old(pos) && viewMatrix == old(viewMatrix) && fixCamera == old(fixCamera)
      ensures speed == old(speed) && sen == old(sen)
      ensures !old(fixCamera) ==> lastX == xpos && lastY == ypos && !firstMouse
      ensures !old(fixCamera) ==>
        yaw == old(yaw) + Turn(xpos - (if old(firstMouse) then xpos else old(lastX)), sen)
      ensures !old(fixCamera) ==>
        pitch == ClampPitch(old(pitch) + Turn((if old(firstMouse) then ypos else old(lastY)) - ypos, sen))
      ensures !old(fixCamera) && old(firstMouse) && old(PitchInRange()) ==> yaw == old(yaw) && pitch == old(pitch)
      ensures !old(fixCamera) ==> PitchInRange()
      ensures old(PitchInRange()) ==> PitchInRange()
    {
      if fixCamera {
        return;
      }
      if firstMouse {
        lastX := xpos;
        lastY := ypos;
        firstMouse := false;
      }
      var xoffset := xpos - lastX;
      var yoffset := lastY - ypos;
      lastX := xpos;
      lastY := ypos;
      yaw := yaw + Turn(xoffset, sen);
      pitch := pitch + Turn(yoffset, sen);
      if pitch > 89.0 {
        pitch := 89.0;
      }
      if pitch < -89.0 {
        pitch := -89.0;
      }
    }
  }
}
