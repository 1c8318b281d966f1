/** src/model/model_file.rs: `load_from_json`, which reads a model file,
    looks at its `type` field and hands the document to the element or the
    array validator. The element path calls the validation chain of
    src/model/model.rs on the parsed value. */
module ModelFiles {
  import opened Outcome
  import opened JsonValues
  import ElementModels
  import ArrayModels

  const MissingType := "JSON 中缺少 type 字段"
  const InvalidType := "JSON 中 type 字段不是有效内容"

  /** The message for a `type` that names no model kind. */
  function UnknownType(t: string): string {
    "无效的模型类型格式: " + t
  }

  /** The boxed model: either kind. */
  datatype Model =
    | Element(element: ElementModels.ElementModel)
    | ArrayOf(array: ArrayModels.ArrayModel)

  /** Lines 12-36 on a parsed value. */
  function Dispatch(j: Json): (r: Result<(string, Model)>)
    ensures !j.Object? ==> r == Err(ElementModels.NotObject)
    ensures j.Object? && !HasKey(j, "type") ==> r == Err(MissingType)
    ensures HasKey(j, "type") && !Member(j, "type").Str? ==> r == Err(InvalidType)
    ensures r.Ok? ==> HasKey(j, "type") && Member(j, "type") in {Str("element"), Str("array")}
    ensures r.Ok? && Member(j, "type") == Str("element") ==>
      r.value.1.Element? && ElementModels.Validate(j).Ok? && r.value.0 == ElementModels.Validate(j).value.name
    ensures r.Ok? && Member(j, "type") == Str("array") ==>
      r.value.1.ArrayOf? && ArrayModels.Validate(j).Ok? && r.value.0 == ArrayModels.Validate(j).value.name
  {
    if !j.Object? then Err(ElementModels.NotObject)
    else if !HasKey(j, "type") then Err(MissingType)
    else if !Member(j, "type").Str? then Err(InvalidType)
    else
      var t := Member(j, "type").s;
      if t == "element" then
        match ElementModels.Validate(j)
        case Err(m) => Err(m)
        case Panic(m) => Panic(m)
        case Ok(d) =>
          match ElementModels.New(d.vertices, d.indices, d.description)
          case Ok(model) => Ok((d.name, Element(model)))
          case Err(m) => Err(m)
          case Panic(m) => Panic(m)
      else if t == "array" then
        match ArrayModels.Validate(j)
        case Err(m) => Err(m)
        case Panic(m) => Panic(m)
        case Ok(d) => Ok((d.name, ArrayOf(ArrayModels.New(d.vertices, d.description))))
      else Err(UnknownType(t))
  }

  /** The whole function: a file that cannot be read or parsed is an error
      carrying the cause, as in the element loader. */
  function LoadModelFile(doc: Document): (r: Result<(string, Model)>)
    ensures doc.ReadFailed? ==> r == Err("读取文件时错误: " + doc.readErr)
    ensures doc.ParseFailed? ==> r == Err("JSON 解析错误: " + doc.parseErr)
    ensures doc.Parsed? ==> r == Dispatch(doc.json)
  {
    match doc
    case ReadFailed(e) => Err("读取文件时错误: " + e)
    case ParseFailed(e) => Err("JSON 解析错误: " + e)
    case Parsed(j) => Dispatch(j)
  }

  /** The failures of the `type` check are told apart from each other and
      from the failures of the validators. */
  lemma TypeErrorsDistinct(t: string)
    ensures MissingType != InvalidType
    ensures MissingType != UnknownType(t) && InvalidType != UnknownType(t)
    ensures UnknownType(t) != ElementModels.NotObject
  {
    assert MissingType[0] != UnknownType(t)[0];
    assert InvalidType[0] != UnknownType(t)[0];
    assert ElementModels.NotObject[0] != UnknownType(t)[0];
    assert MissingType[7] != InvalidType[7];
  }

  /** A `type` that is neither kind is reported with the text it had, which
      can be read back from the message. */
  lemma UnknownTypeNamed(j: Json)
    requires j.Object? && HasKey(j, "type") && Member(j, "type").Str?
    requires Member(j, "type").s != "element" && Member(j, "type").s != "array"
    ensures Dispatch(j).Err?
    ensures var m := Dispatch(j).msg; |m| >= |Member(j, "type").s| && m[|m| - |Member(j, "type").s|..] == Member(j, "type").s
  {
  }

  /** The failures of the element validator reach the caller unchanged. */
  lemma ElementErrorsPropagate(j: Json)
    requires j.Object? && Member(j, "type") == Str("element")
    requires !ElementModels.Validate(j).Ok?
    ensures ElementModels.Validate(j).Err? ==> Dispatch(j) == Err(ElementModels.Validate(j).msg)
    ensures ElementModels.Validate(j).Panic? ==> Dispatch(j) == Panic(ElementModels.Validate(j).reason)
  {
  }

  /** The failures of the array validator reach the caller unchanged. */
  lemma ArrayErrorsPropagate(j: Json)
    requires j.Object? && Member(j, "type") == Str("array")
    requires ArrayModels.Validate(j).Err?
    ensures Dispatch(j) == Err(ArrayModels.Validate(j).msg)
  {
  }

  /** A well-formed element file loads under its `name`, with its vertices
      and indices, when its layout description parses. */
  lemma ElementFileLoads(d: ElementModels.ElementDoc)
    requires forall k :: 0 <= k < |d.indices| ==> d.indices[k] < 0x1_0000_0000
    requires ElementModels.New(d.vertices, d.indices, d.description).Ok?
    ensures var r := LoadModelFile(Parsed(ElementModels.Encode(d)));
      r.Ok? && r.value.0 == d.name && r.value.1.Element? &&
      r.value.1.element.vertices == d.vertices && r.value.1.element.indices == d.indices
  {
    var j := ElementModels.Encode(d);
    ElementModels.ValidateEncode(d);
    assert Member(j, "type") == Str("element");
  }

  /** A well-formed array file loads under its `name`, with its vertices. */
  lemma ArrayFileLoads(d: ArrayModels.ArrayDoc)
    ensures var r := LoadModelFile(Parsed(ArrayModels.Encode(d)));
      r.Ok? && r.value.0 == d.name && r.value.1 == ArrayOf(ArrayModels.ArrayModel(d.vertices))
  {
    var j := ArrayModels.Encode(d);
    ArrayModels.ValidateEncode(d);
    assert Member(j, "type") == Str("array");
  }
}
