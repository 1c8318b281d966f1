/** The parsed JSON values the model loaders read, and the accessors of the
    `json` crate they use. Text parsing is not modelled: a document arrives
    already parsed, or as the message of the read or parse failure. */
module JsonValues {
  import opened Outcome

  /** A JSON value. The crate's short and long strings are one case; the
      numbers are exact. */
  datatype Json =
    | Null
    | Boolean(b: bool)
    | Number(x: real)
    | Str(s: string)
    | Array(items: seq<Json>)
    | Object(fields: map<string, Json>)

  /** What reading a file and `json::parse` gave. */
  datatype Document =
    | ReadFailed(readErr: string)
    | ParseFailed(parseErr: string)
    | Parsed(json: Json)

  /** `has_key`: only an object has keys. */
  predicate HasKey(j: Json, key: string) {
    j.Object? && key in j.fields
  }

  /** `json[key]`: the member, or `Null` when there is none. */
  function Member(j: Json, key: string): (r: Json)
    ensures HasKey(j, key) ==> r == j.fields[key]
    ensures !HasKey(j, key) ==> r == Null
  {
    if HasKey(j, key) then j.fields[key] else Null
  }

  /** `as_str`: the text of a string. */
  function AsStr(j: Json): (r: Option<string>)
    ensures r.Some? <==> j.Str?
  {
    if j.Str? then Some(j.s) else None
  }

  /** `members()`: the elements of an array, and nothing for any other value. */
  function Members(j: Json): seq<Json> {
    if j.Array? then j.items else []
  }

  /** Whether a real is a whole number. */
  predicate IsWhole(x: real) {
    x == x.Floor as real
  }

  /** `as_u32`: a number that is a whole number in the range of `u32`. */
  function AsU32(j: Json): (r: Option<nat>)
    ensures r.Some? ==> j.Number? && r.value as real == j.x && r.value < 0x1_0000_0000
  {
    if j.Number? && IsWhole(j.x) && 0.0 <= j.x < 0x1_0000_0000 as real then Some(j.x.Floor) else None
  }

  /** The numbers of reals, as JSON numbers. */
  function Numbers(xs: seq<real>): (r: seq<Json>)
    ensures |r| == |xs| && forall k :: 0 <= k < |xs| ==> r[k] == Number(xs[k])
  {
    seq(|xs|, k requires 0 <= k < |xs| => Number(xs[k]))
  }

  /** The numbers of naturals, as JSON numbers. */
  function Naturals(ns: seq<nat>): (r: seq<Json>)
    ensures |r| == |ns| && forall k :: 0 <= k < |ns| ==> r[k] == Number(ns[k] as real)
  {
    seq(|ns|, k requires 0 <= k < |ns| => Number(ns[k] as real))
  }

  /** Reading a natural below 2^32 back from its JSON number gives it back. */
  lemma AsU32OfNatural(n: nat)
    requires n < 0x1_0000_0000
    ensures AsU32(Number(n as real)) == Some(n)
  {
    assert (n as real).Floor == n;
  }
}
