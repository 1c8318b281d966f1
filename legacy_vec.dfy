/** src/utils/vec/mod.rs and src/utils/vec/vec3.rs: the field-by-field vector
    macros of the older generation, and the `Vec3` struct that instantiates
    the add and sub forms. */
module LegacyVec {

  /** The fields a macro invocation lists, in order, as values. A struct
      literal must name every field, so the list is every field of the type. */
  type Fields = seq<real>

  /** `impl_vec_ops_add`: `field: self.field + other.field` for each listed field. */
  function AddFields(a: Fields, b: Fields): (r: Fields)
    requires |a| == |b|
    ensures |r| == |a|
  {
    seq(|a|, k requires 0 <= k < |a| => a[k] + b[k])
  }

  /** `impl_vec_ops_sub`: `field: self.field - other.field`. */
  function SubFields(a: Fields, b: Fields): (r: Fields)
    requires |a| == |b|
    ensures |r| == |a|
  {
    seq(|a|, k requires 0 <= k < |a| => a[k] - b[k])
  }

  /** `impl_vec_ops_mul_number`: `field: self.field * other` with one scalar. */
  function MulNumberFields(a: Fields, k: real): (r: Fields)
    ensures |r| == |a|
  {
    seq(|a|, n requires 0 <= n < |a| => a[n] * k)
  }

  /** With exact arithmetic, adding then subtracting b gives back a, and
      subtracting then adding does too. */
  lemma AddThenSub(a: Fields, b: Fields)
    requires |a| == |b|
    ensures SubFields(AddFields(a, b), b) == a
    ensures AddFields(SubFields(a, b), b) == a
  {
  }

  /** Addition is the same whichever operand comes first. */
  lemma AddCommutes(a: Fields, b: Fields)
    requires |a| == |b|
    ensures AddFields(a, b) == AddFields(b, a)
  {
  }

  /** Scaling distributes over the field-wise sum, and scaling by 1 changes nothing. */
  lemma MulNumberLaws(a: Fields, b: Fields, k: real)
    requires |a| == |b|
    ensures MulNumberFields(AddFields(a, b), k) == AddFields(MulNumberFields(a, k), MulNumberFields(b, k))
    ensures MulNumberFields(a, 1.0) == a
  {
    var l, r := MulNumberFields(AddFields(a, b), k), AddFields(MulNumberFields(a, k), MulNumberFields(b, k));
    forall n | 0 <= n < |a|
      ensures l[n] == r[n]
    {
      calc {
        l[n];
        (a[n] + b[n]) * k;
        a[n] * k + b[n] * k;
        r[n];
      }
    }
  }

  // ---------------------------------------------------------------------------
  // Vec3
  // ---------------------------------------------------------------------------

  /** `Vec3 { x, y, z }`; `Vec3::new(x, y, z)` is the constructor. */
  datatype Vec3 = Vec3(x: real, y: real, z: real)
  {
    /** The field list of `impl_vec_ops_add!(Vec3<T>, x, y, z)`. */
    function Fields(): (r: Fields)
      ensures |r| == 3
    {
      [x, y, z]
    }
  }

  /** The struct literal built from the three listed fields. */
  function FromFields(f: Fields): (r: Vec3)
    requires |f| == 3
    ensures r.Fields() == f
  {
    Vec3(f[0], f[1], f[2])
  }

  /** `Vec3 + Vec3`, the macro instance at src/utils/vec/vec3.rs:40. */
  function Add(a: Vec3, b: Vec3): (r: Vec3)
    ensures r.x == a.x + b.x && r.y == a.y + b.y && r.z == a.z + b.z
  {
    FromFields(AddFields(a.Fields(), b.Fields()))
  }

  /** `Vec3 - Vec3`, the macro instance at src/utils/vec/vec3.rs:41. */
  function Sub(a: Vec3, b: Vec3): (r: Vec3)
    ensures r.x == a.x - b.x && r.y == a.y - b.y && r.z == a.z - b.z
  {
    FromFields(SubFields(a.Fields(), b.Fields()))
  }

  /** `Vec3 * k` as `impl_vec_ops_mul_number` would define it for the fields
      x, y and z. src/utils/vec/vec3.rs does not instantiate that macro, so the
      source has no such product. */
  function MulNumber(a: Vec3, k: real): (r: Vec3)
    ensures r.x == a.x * k && r.y == a.y * k && r.z == a.z * k
  {
    FromFields(MulNumberFields(a.Fields(), k))
  }

  /** Field order is kept: the fields of the struct built from a list are the list. */
  lemma FieldsRoundTrip(v: Vec3)
    ensures FromFields(v.Fields()) == v
  {
  }

  /** `new(x, y, z) + new(0, 0, 0) == new(x, y, z)`, and `(a + b) - b == a`. */
  lemma Vec3Laws(x: real, y: real, z: real, a: Vec3, b: Vec3)
    ensures Add(Vec3(x, y, z), Vec3(0.0, 0.0, 0.0)) == Vec3(x, y, z)
    ensures Sub(Add(a, b), b) == a
  {
  }
}
