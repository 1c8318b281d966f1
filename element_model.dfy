/** src/model/model.rs: the `ElementModel`, drawn with an index buffer, and
    its JSON description format. The validation chain of `load_from_json`
    reports the first check that fails; each message is the source's own. */
module ElementModels {
  import opened Outcome
  import opened Vectors
  import opened JsonValues
  import opened VertexLayout

  const NotObject := "JSON 不是对象"
  const MissingName := "JSON 中缺少 name 字段"
  const MissingDescription := "JSON 中缺少 description 字段"
  const MissingVertices := "JSON 中缺少 vertices 字段"
  const MissingIndices := "JSON 中缺少 indices 字段"
  const InvalidName := "JSON 中 name 字段无效"
  const InvalidDescription := "JSON 中 description 字段无效"
  const VerticesNotArray := "JSON 中 vertices 字段不是数组"
  const IndicesNotArray := "JSON 中 indices 字段不是数组"
  const VertexNotNumber := "JSON 中 vertices 字段数组元素不是数字"
  const IndexNotNumber := "JSON 中 indices 字段数组元素不是数字"
  const UnwrapNone := "called `Option::unwrap()` on a `None` value"

  /** What a valid description holds: `(name, vertices, indices, description)`. */
  datatype ElementDoc = ElementDoc(name: string, vertices: seq<real>, indices: seq<nat>, description: string)

  // ---------------------------------------------------------------------------
  // The element loops
  // ---------------------------------------------------------------------------

  /** One element of `vertices`: a number is kept (`as_f32().unwrap()` of a
      number always succeeds), anything else is the error. */
  function ReadVertex(j: Json): Result<real> {
    if j.Number? then Ok(j.x) else Err(VertexNotNumber)
  }

  /** One element of `indices`: a non-number is the error, and a number
      that is no `u32` panics on `as_u32().unwrap()`. */
  function ReadIndex(j: Json): Result<nat> {
    if !j.Number? then Err(IndexNotNumber)
    else match AsU32(j)
      case None => Panic(UnwrapNone)
      case Some(v) => Ok(v)
  }

  /** A `for` loop over the first n members that pushes each element read,
      and stops at the first one that cannot be read. */
  function Collect<T>(items: seq<Json>, n: nat, read: Json -> Result<T>): Result<seq<T>>
    requires n <= |items|
    decreases n
  {
    if n == 0 then Ok([])
    else match Collect(items, n - 1, read)
      case Ok(before) =>
        (match read(items[n - 1])
          case Ok(x) => Ok(before + [x])
          case Err(m) => Err(m)
          case Panic(m) => Panic(m))
      case Err(m) => Err(m)
      case Panic(m) => Panic(m)
  }

  /** Once an element fails, the later ones are never looked at. */
  lemma {:induction false} CollectStops<T>(items: seq<Json>, i: nat, n: nat, read: Json -> Result<T>)
    requires i <= n <= |items|
    requires !Collect(items, i, read).Ok?
    ensures Collect(items, n, read) == Collect(items, i, read)
    decreases n - i
  {
    if i < n {
      CollectStops(items, i, n - 1, read);
    }
  }

  /** Collecting elements that all read succeeds with their values in order. */
  lemma {:induction false} CollectAll<T>(xs: seq<T>, items: seq<Json>, n: nat, read: Json -> Result<T>)
    requires |xs| == |items| && n <= |items|
    requires forall k :: 0 <= k < |items| ==> read(items[k]) == Ok(xs[k])
    ensures Collect(items, n, read) == Ok(xs[..n])
    decreases n
  {
    if n > 0 {
      CollectAll(xs, items, n - 1, read);
      assert xs[..n - 1] + [xs[n - 1]] == xs[..n];
    }
  }

  /** The vertex loop of lines 102-108. */
  method CollectVertices(items: seq<Json>) returns (r: Result<seq<real>>)
    ensures r == Collect(items, |items|, ReadVertex)
  {
    var retVertices: seq<real> := [];
    for i := 0 to |items|
      invariant Collect(items, i, ReadVertex) == Ok(retVertices)
    {
      var vertex := items[i];
      if vertex.Number? {
        retVertices := retVertices + [vertex.x];
      } else {
        CollectStops(items, i + 1, |items|, ReadVertex);
        return Err(VertexNotNumber);
      }
    }
    r := Ok(retVertices);
  }

  /** The index loop of lines 109-115. */
  method CollectIndices(items: seq<Json>) returns (r: Result<seq<nat>>)
    ensures r == Collect(items, |items|, ReadIndex)
  {
    var retIndices: seq<nat> := [];
    for i := 0 to |items|
      invariant Collect(items, i, ReadIndex) == Ok(retIndices)
    {
      var index := items[i];
      if index.Number? {
        var v := AsU32(index);
        if v.None? {
          CollectStops(items, i + 1, |items|, ReadIndex);
          return Panic(UnwrapNone);
        }
        retIndices := retIndices + [v.value];
      } else {
        CollectStops(items, i + 1, |items|, ReadIndex);
        return Err(IndexNotNumber);
      }
    }
    r := Ok(retIndices);
  }

  // ---------------------------------------------------------------------------
  // The validation chain
  // ---------------------------------------------------------------------------

  /** Lines 66-116 on a parsed value, check by check. */
  function Validate(j: Json): (r: Result<ElementDoc>)
    ensures r.Ok? ==> j.Object? && Member(j, "name") == Str(r.value.name)
    ensures r.Ok? ==> Member(j, "description") == Str(r.value.description)
    ensures r.Ok? ==> Members(Member(j, "vertices")) == Numbers(r.value.vertices)
    ensures r.Ok? ==> Members(Member(j, "indices")) == Naturals(r.value.indices)
  {
    if !j.Object? then Err(NotObject)
    else if !HasKey(j, "name") then Err(MissingName)
    else if !HasKey(j, "description") then Err(MissingDescription)
    else if !HasKey(j, "vertices") then Err(MissingVertices)
    else if !HasKey(j, "indices") then Err(MissingIndices)
    else if !Member(j, "name").Str? then Err(InvalidName)
    else if !Member(j, "description").Str? then Err(InvalidDescription)
    else if !Member(j, "vertices").Array? then Err(VerticesNotArray)
    else if !Member(j, "indices").Array? then Err(IndicesNotArray)
    else
      var vs, ixs := Member(j, "vertices").items, Member(j, "indices").items;
      match Collect(vs, |vs|, ReadVertex)
      case Err(m) => Err(m)
      case Panic(m) => Panic(m)
      case Ok(vertices) =>
        ElementsAreRead(vs, vertices, ReadVertex);
        match Collect(ixs, |ixs|, ReadIndex)
        case Err(m) => Err(m)
        case Panic(m) => Panic(m)
        case Ok(indices) =>
          ElementsAreRead(ixs, indices, ReadIndex);
          assert forall k :: 0 <= k < |ixs| ==> ixs[k] == Number(indices[k] as real) by {
            forall k | 0 <= k < |ixs| ensures ixs[k] == Number(indices[k] as real) {
              assert ReadIndex(ixs[k]) == Ok(indices[k]);
            }
          }
          Ok(ElementDoc(Member(j, "name").s, vertices, indices, Member(j, "description").s))
  }

  /** What a successful collection read: one value per element, each the
      value of that element. */
  lemma {:induction false} ElementsAreRead<T>(items: seq<Json>, xs: seq<T>, read: Json -> Result<T>)
    requires Collect(items, |items|, read) == Ok(xs)
    ensures |xs| == |items| && forall k :: 0 <= k < |items| ==> read(items[k]) == Ok(xs[k])
  {
    ElementsAreReadUpTo(items, |items|, read);
  }

  lemma {:induction false} ElementsAreReadUpTo<T>(items: seq<Json>, n: nat, read: Json -> Result<T>)
    requires n <= |items|
    ensures Collect(items, n, read).Ok? ==>
      var xs := Collect(items, n, read).value;
      |xs| == n && forall k :: 0 <= k < n ==> read(items[k]) == Ok(xs[k])
    decreases n
  {
    if n > 0 {
      ElementsAreReadUpTo(items, n - 1, read);
    }
  }

  /** `ElementModel::load_from_json` on a parsed value: the early returns of
      lines 66-101 and the two loops. */
  method LoadFromJson(json: Json) returns (r: Result<ElementDoc>)
    ensures r == Validate(json)
  {
    if !json.Object? {
      return Err(NotObject);
    }
    if !HasKey(json, "name") {
      return Err(MissingName);
    }
    if !HasKey(json, "description") {
      return Err(MissingDescription);
    }
    if !HasKey(json, "vertices") {
      return Err(MissingVertices);
    }
    if !HasKey(json, "indices") {
      return Err(MissingIndices);
    }
    var name := AsStr(Member(json, "name"));
    if name.None? {
      return Err(InvalidName);
    }
    var description := AsStr(Member(json, "description"));
    if description.None? {
      return Err(InvalidDescription);
    }
    var vertices, indices := Member(json, "vertices"), Member(json, "indices");
    if !vertices.Array? {
      return Err(VerticesNotArray);
    }
    if !indices.Array? {
      return Err(IndicesNotArray);
    }
    var retVertices := CollectVertices(Members(vertices));
    if !retVertices.Ok? {
      return if retVertices.Err? then Err(retVertices.msg) else Panic(retVertices.reason);
    }
    var retIndices := CollectIndices(Members(indices));
    if !retIndices.Ok? {
      return if retIndices.Err? then Err(retIndices.msg) else Panic(retIndices.reason);
    }
    r := Ok(ElementDoc(name.value, retVertices.value, retIndices.value, description.value));
  }

  /** `ElementModel::load_from_json(path)`: a file that cannot be read or
      parsed is an error carrying the cause; a parsed one is validated. */
  function LoadFromFile(doc: Document): (r: Result<ElementDoc>)
    ensures doc.ReadFailed? ==> r == Err("读取文件时错误: " + doc.readErr)
    ensures doc.ParseFailed? ==> r == Err("JSON 解析错误: " + doc.parseErr)
    ensures doc.Parsed? ==> r == Validate(doc.json)
  {
    match doc
    case ReadFailed(e) => Err("读取文件时错误: " + e)
    case ParseFailed(e) => Err("JSON 解析错误: " + e)
    case Parsed(j) => Validate(j)
  }

  // ---------------------------------------------------------------------------
  // What validation accepts
  // ---------------------------------------------------------------------------

  /** The description of a model, as the loader expects it. */
  function Encode(d: ElementDoc): Json {
    Object(map["type" := Str("element"), "name" := Str(d.name), "description" := Str(d.description),
               "vertices" := Array(Numbers(d.vertices)), "indices" := Array(Naturals(d.indices))])
  }

  /** Validation reads back every description whose indices are `u32`s:
      name, description, vertices and indices come back verbatim, in
      document order. */
  lemma ValidateEncode(d: ElementDoc)
    requires forall k :: 0 <= k < |d.indices| ==> d.indices[k] < 0x1_0000_0000
    ensures Validate(Encode(d)) == Ok(d)
  {
    var j := Encode(d);
    var vs, ixs := Numbers(d.vertices), Naturals(d.indices);
    assert Member(j, "vertices").items == vs && Member(j, "indices").items == ixs;
    CollectAll(d.vertices, vs, |vs|, ReadVertex);
    forall k | 0 <= k < |ixs|
      ensures ReadIndex(ixs[k]) == Ok(d.indices[k])
    {
      AsU32OfNatural(d.indices[k]);
    }
    CollectAll(d.indices, ixs, |ixs|, ReadIndex);
    assert d.vertices[..|vs|] == d.vertices && d.indices[..|ixs|] == d.indices;
  }

  /** Every vertex is checked before any index: a vertex that is not a
      number is reported even when the indices are bad too. */
  lemma VerticesCheckedFirst(j: Json, k: nat)
    requires Validate(j) != Err(NotObject) && j.Object?
    requires HasKey(j, "name") && HasKey(j, "description") && HasKey(j, "indices")
    requires Member(j, "name").Str? && Member(j, "description").Str? && Member(j, "indices").Array?
    requires Member(j, "vertices").Array? && k < |Member(j, "vertices").items|
    requires forall i :: 0 <= i < k ==> Member(j, "vertices").items[i].Number?
    requires !Member(j, "vertices").items[k].Number?
    ensures Validate(j) == Err(VertexNotNumber)
  {
    var vs := Member(j, "vertices").items;
    VertexFailure(vs, k);
  }

  /** The vertex loop fails with its error at the first non-number. */
  lemma VertexFailure(vs: seq<Json>, k: nat)
    requires k < |vs| && !vs[k].Number?
    requires forall i :: 0 <= i < k ==> vs[i].Number?
    ensures Collect(vs, |vs|, ReadVertex) == Err(VertexNotNumber)
  {
    CollectFirstFailure(vs, k, ReadVertex);
  }

  /** Collecting elements that all read succeeds. */
  lemma {:induction false} CollectReads<T>(items: seq<Json>, n: nat, read: Json -> Result<T>)
    requires n <= |items|
    requires forall i :: 0 <= i < n ==> read(items[i]).Ok?
    ensures Collect(items, n, read).Ok?
    decreases n
  {
    if n > 0 {
      CollectReads(items, n - 1, read);
    }
  }

  /** The loop ends with the failure of the first element that cannot be
      read, whatever follows it. */
  lemma CollectFirstFailure<T>(items: seq<Json>, k: nat, read: Json -> Result<T>)
    requires k < |items|
    requires forall i :: 0 <= i < k ==> read(items[i]).Ok?
    requires !read(items[k]).Ok?
    ensures read(items[k]).Err? ==> Collect(items, |items|, read) == Err(read(items[k]).msg)
    ensures read(items[k]).Panic? ==> Collect(items, |items|, read) == Panic(read(items[k]).reason)
  {
    CollectReads(items, k, read);
    assert !Collect(items, k + 1, read).Ok?;
    CollectStops(items, k + 1, |items|, read);
  }

  /** An index that is a number but no `u32`, such as -1 or 0.5, panics
      when every element before it is a valid index. */
  lemma IndexOutOfRangePanics(ixs: seq<Json>, k: nat)
    requires k < |ixs| && ixs[k].Number? && AsU32(ixs[k]).None?
    requires forall i :: 0 <= i < k ==> AsU32(ixs[i]).Some?
    ensures Collect(ixs, |ixs|, ReadIndex) == Panic(UnwrapNone)
  {
    CollectFirstFailure(ixs, k, ReadIndex);
  }

  // ---------------------------------------------------------------------------
  // The model
  // ---------------------------------------------------------------------------

  /** An `ElementModel`: its vertices and indices, and the attribute layout
      of `create_model_context`; the GL buffer names are left out. */
  datatype ElementModel = ElementModel(vertices: seq<real>, indices: seq<nat>, layout: seq<AttribPointer>)

  /** `ElementModel::new`: the vertices and indices are kept, and the layout
      description is parsed; a description that panics makes `new` panic. */
  function New(vertices: seq<real>, indices: seq<nat>, description: string): (r: Result<ElementModel>)
    ensures r.Ok? <==> Layout(description).Ok?
    ensures r.Ok? ==> r.value == ElementModel(vertices, indices, Layout(description).value)
    ensures Layout(description).Panic? ==> r == Panic(Layout(description).reason)
  {
    match Layout(description)
    case Ok(layout) => Ok(ElementModel(vertices, indices, layout))
    case Err(m) => Panic(m)
    case Panic(m) => Panic(m)
  }

  /** `len() as i32`: the length seen as a two's-complement `i32`. */
  function AsI32(n: nat): (r: int)
    ensures IsI32(r) && (r - n) % 0x1_0000_0000 == 0
    ensures n < 0x8000_0000 ==> r == n
  {
    var low := n % 0x1_0000_0000;
    if low < 0x8000_0000 then low else low - 0x1_0000_0000
  }

  /** `draw`: the count `DrawElements` is given is the number of indices. */
  function DrawCount(m: ElementModel): (r: int)
    ensures |m.indices| < 0x8000_0000 ==> r == |m.indices|
  {
    AsI32(|m.indices|)
  }
}
