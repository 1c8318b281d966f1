/** src/model/array_model.rs: the `ArrayModel`, drawn without an index
    buffer, and its JSON description format. Its validation chain shares the
    messages of the element model but has no object check and never reads
    `indices`. */
module ArrayModels {
  import opened Outcome
  import opened Vectors
  import opened JsonValues
  import opened ElementModels

  /** What a valid description holds: `(name, vertices, description)`. */
  datatype ArrayDoc = ArrayDoc(name: string, vertices: seq<real>, description: string)

  /** Lines 48-79 on a parsed value, check by check. A value that is not an
      object has no keys, so it fails the first key check. */
  function Validate(j: Json): (r: Result<ArrayDoc>)
    ensures !r.Panic?
    ensures !j.Object? ==> r == Err(MissingName)
    ensures r.Ok? ==> Member(j, "name") == Str(r.value.name)
    ensures r.Ok? ==> Member(j, "description") == Str(r.value.description)
    ensures r.Ok? ==> Members(Member(j, "vertices")) == Numbers(r.value.vertices)
  {
    if !HasKey(j, "name") then Err(MissingName)
    else if !HasKey(j, "description") then Err(MissingDescription)
    else if !HasKey(j, "vertices") then Err(MissingVertices)
    else if !Member(j, "name").Str? then Err(InvalidName)
    else if !Member(j, "description").Str? then Err(InvalidDescription)
    else if !Member(j, "vertices").Array? then Err(VerticesNotArray)
    else
      var vs := Member(j, "vertices").items;
      VerticesNeverPanic(vs, |vs|);
      match Collect(vs, |vs|, ReadVertex)
      case Err(m) => Err(m)
      case Panic(m) => Panic(m)
      case Ok(vertices) =>
        ElementsAreRead(vs, vertices, ReadVertex);
        Ok(ArrayDoc(Member(j, "name").s, vertices, Member(j, "description").s))
  }

  /** The vertex loop can fail but never panics. */
  lemma {:induction false} VerticesNeverPanic(vs: seq<Json>, n: nat)
    requires n <= |vs|
    ensures !Collect(vs, n, ReadVertex).Panic?
    decreases n
  {
    if n > 0 {
      VerticesNeverPanic(vs, n - 1);
    }
  }

  /** `ArrayModel::load_from_json` on a parsed value: the early returns and
      the vertex loop. */
  method LoadFromJson(json: Json) returns (r: Result<ArrayDoc>)
    ensures r == Validate(json)
  {
    if !HasKey(json, "name") {
      return Err(MissingName);
    }
    if !HasKey(json, "description") {
      return Err(MissingDescription);
    }
    if !HasKey(json, "vertices") {
      return Err(MissingVertices);
    }
    var name := AsStr(Member(json, "name"));
    if name.None? {
      return Err(InvalidName);
    }
    var description := AsStr(Member(json, "description"));
    if description.None? {
      return Err(InvalidDescription);
    }
    var vertices := Member(json, "vertices");
    if !vertices.Array? {
      return Err(VerticesNotArray);
    }
    var retVertices := CollectVertices(Members(vertices));
    if !retVertices.Ok? {
      return if retVertices.Err? then Err(retVertices.msg) else Panic(retVertices.reason);
    }
    r := Ok(ArrayDoc(name.value, retVertices.value, description.value));
  }

  /** The description of an array model, as the loader expects it. */
  function Encode(d: ArrayDoc): Json {
    Object(map["type" := Str("array"), "name" := Str(d.name), "description" := Str(d.description),
               "vertices" := Array(Numbers(d.vertices))])
  }

  /** Validation reads back every description: name, description and
      vertices come back verbatim, in document order. */
  lemma ValidateEncode(d: ArrayDoc)
    ensures Validate(Encode(d)) == Ok(d)
  {
    var vs := Numbers(d.vertices);
    assert Member(Encode(d), "vertices").items == vs;
    CollectAll(d.vertices, vs, |vs|, ReadVertex);
    assert d.vertices[..|vs|] == d.vertices;
  }

  /** `indices` is neither required nor read: adding, removing or changing
      it does not change what validation gives. */
  lemma IndicesIgnored(fields: map<string, Json>, indices: Json)
    ensures Validate(Object(fields["indices" := indices])) == Validate(Object(fields))
    ensures Validate(Object(fields - {"indices"})) == Validate(Object(fields))
  {
    var j1, j2 := Object(fields["indices" := indices]), Object(fields - {"indices"});
    assert forall k :: k != "indices" ==> HasKey(j1, k) == HasKey(Object(fields), k) && Member(j1, k) == Member(Object(fields), k);
    assert forall k :: k != "indices" ==> HasKey(j2, k) == HasKey(Object(fields), k) && Member(j2, k) == Member(Object(fields), k);
  }

  /** An `ArrayModel`: its vertices; the GL buffer names are left out. */
  datatype ArrayModel = ArrayModel(vertices: seq<real>)

  /** `ArrayModel::new`: the vertices are kept. */
  function New(vertices: seq<real>, description: string): (r: ArrayModel)
    ensures r.vertices == vertices
  {
    ArrayModel(vertices)
  }

  /** `draw`: `DrawArrays` is given the number of whole triples of
      vertex values, seen as an `i32`, whatever the layout of a vertex. */
  function DrawCount(m: ArrayModel): (r: int)
    ensures IsI32(r)
    ensures |m.vertices| < 3 * 0x8000_0000 ==> 0 <= 3 * r <= |m.vertices| < 3 * r + 3
  {
    AsI32(|m.vertices| / 3)
  }
}
