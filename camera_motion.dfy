/** What the three cameras of src/camera share: the polled keys, the pitch
    limit, and one movement step `pos += dir * speed` or `pos -= dir * speed`. */
module CameraMotion {
  import opened Matrix
  import opened Vectors

  /** The keys `update` polls, each pressed or not; the window that is polled
      is left out. */
  datatype Keys = Keys(w: bool, s: bool, a: bool, d: bool, space: bool, leftShift: bool, leftAlt: bool)

  /** The two `if` statements that limit the pitch: above 89 becomes 89, then
      below -89 becomes -89. */
  function ClampPitch(p: real): (r: real)
    ensures -89.0 <= r <= 89.0
    ensures -89.0 <= p <= 89.0 ==> r == p
    ensures p > 89.0 ==> r == 89.0
    ensures p < -89.0 ==> r == -89.0
  {
    var upper := if p > 89.0 then 89.0 else p;
    if upper < -89.0 then -89.0 else upper
  }

  /** Limiting keeps the order of two pitches and limiting twice is limiting once. */
  lemma ClampMonotone(p: real, q: real)
    requires p <= q
    ensures ClampPitch(p) <= ClampPitch(q)
    ensures ClampPitch(ClampPitch(p)) == ClampPitch(p)
  {
  }

  /** `speed * dt`, the distance one frame moves along a direction. */
  function Distance(speed: real, dt: real): real {
    speed * dt
  }

  /** `offset * sen`, the angle a cursor offset turns the camera by. */
  function Turn(offset: real, sen: real): real {
    offset * sen
  }

  /** The distance a key contributes: x when it is held, 0 otherwise. */
  function Held(held: bool, x: real): real {
    if held then x else 0.0
  }

  /** One key check of `update`: the key's state, whether it adds or
      subtracts, and the direction it moves along. */
  datatype Step = Step(held: bool, forward: bool, dir: Vec3)

  /** `if held { pos += dir * k }` or `if held { pos -= dir * k }`. */
  function Apply(p: Vec3, s: Step, k: real): Vec3 {
    if !s.held then p
    else if s.forward then Sum(p, Scaled(s.dir, k))
    else Difference(p, Scaled(s.dir, k))
  }

  /** The key checks run in order. */
  function Walk(p: Vec3, steps: seq<Step>, k: real): Vec3
    decreases |steps|
  {
    if |steps| == 0 then p else Walk(Apply(p, steps[0], k), steps[1..], k)
  }

  /** A held key moves along its direction, a released one leaves the position. */
  lemma ApplyEntry(p: Vec3, s: Step, k: real, c: nat)
    requires c < 3
    ensures s.held && s.forward ==> Apply(p, s, k).data[0][c] == p.data[0][c] + s.dir.data[0][c] * k
    ensures s.held && !s.forward ==> Apply(p, s, k).data[0][c] == p.data[0][c] - s.dir.data[0][c] * k
    ensures !s.held ==> Apply(p, s, k) == p
  {
  }

  /** A key check along a direction with component c equal to 0 keeps component c. */
  lemma ApplyKeepsComponent(p: Vec3, s: Step, k: real, c: nat)
    requires c < 3 && s.dir.data[0][c] == 0.0
    ensures Apply(p, s, k).data[0][c] == p.data[0][c]
  {
    ApplyEntry(p, s, k, c);
  }

  /** Adding then subtracting the same step, or neither, leaves the position. */
  lemma PairCancels(p: Vec3, held: bool, dir: Vec3, k: real)
    ensures Apply(Apply(p, Step(held, true, dir), k), Step(held, false, dir), k) == p
  {
    if held {
      SumThenDifference(p, Scaled(dir, k));
    }
  }

  /** Subtracting then adding the same step, or neither, leaves the position. */
  lemma PairCancelsReversed(p: Vec3, held: bool, dir: Vec3, k: real)
    ensures Apply(Apply(p, Step(held, false, dir), k), Step(held, true, dir), k) == p
  {
    if held {
      ComponentsDetermine(Sum(Difference(p, Scaled(dir, k)), Scaled(dir, k)), p);
    }
  }

  /** Six key checks in a row, unrolled. */
  lemma WalkSix(p: Vec3, s0: Step, s1: Step, s2: Step, s3: Step, s4: Step, s5: Step, k: real)
    ensures Walk(p, [s0, s1, s2, s3, s4, s5], k)
         == Apply(Apply(Apply(Apply(Apply(Apply(p, s0, k), s1, k), s2, k), s3, k), s4, k), s5, k)
  {
    var q1 := Apply(p, s0, k);
    var q2 := Apply(q1, s1, k);
    var q3 := Apply(q2, s2, k);
    var q4 := Apply(q3, s3, k);
    var q5 := Apply(q4, s4, k);
    var q6 := Apply(q5, s5, k);
    assert [s0, s1, s2, s3, s4, s5][1..] == [s1, s2, s3, s4, s5];
    assert [s1, s2, s3, s4, s5][1..] == [s2, s3, s4, s5];
    assert [s2, s3, s4, s5][1..] == [s3, s4, s5];
    assert [s3, s4, s5][1..] == [s4, s5];
    assert [s4, s5][1..] == [s5];
    assert [s5][1..] == [];
    calc {
      Walk(p, [s0, s1, s2, s3, s4, s5], k);
      Walk(q1, [s1, s2, s3, s4, s5], k);
      Walk(q2, [s2, s3, s4, s5], k);
      Walk(q3, [s3, s4, s5], k);
      Walk(q4, [s4, s5], k);
      Walk(q5, [s5], k);
      Walk(q6, [], k);
    }
  }

  /** Each key of a pair W/S, A/D, Space/LeftShift is held exactly when the other is. */
  predicate Balanced(keys: Keys) {
    keys.w == keys.s && keys.a == keys.d && keys.space == keys.leftShift
  }
}
