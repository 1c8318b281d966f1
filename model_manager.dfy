/** src/model/mod.rs: the `ModelManager` registry of element models by name,
    the wrapper's `add_model`, `load_from_json` and `draw_model`, and the
    `NOT_FOUND_MODEL` set that makes a missing name warn once. */
module ModelManagers {
  import opened Outcome
  import opened JsonValues
  import opened ElementModels
  import opened WarnOnce

  /** The registry after `add`: the model `ElementModel::new` builds is
      inserted under the name, and a layout description that panics makes
      `add` panic before anything is inserted. */
  function Added(models: map<string, ElementModel>, name: string, vertices: seq<real>, indices: seq<nat>,
                 description: string): (r: Result<map<string, ElementModel>>)
    ensures r.Ok? <==> New(vertices, indices, description).Ok?
    ensures r.Ok? ==> name in r.value && r.value[name] == New(vertices, indices, description).value
    ensures r.Ok? ==> forall n :: n != name ==> (n in r.value <==> n in models) && (n in models ==> r.value[n] == models[n])
  {
    match New(vertices, indices, description)
    case Ok(model) => Ok(models[name := model])
    case Err(m) => Panic(m)
    case Panic(m) => Panic(m)
  }

  /** Adding twice under one name keeps only the second model. */
  lemma AddReplaces(models: map<string, ElementModel>, name: string, v1: seq<real>, i1: seq<nat>,
                    v2: seq<real>, i2: seq<nat>, description: string)
    requires New(v1, i1, description).Ok?
    ensures var once := Added(models, name, v1, i1, description).value;
      Added(once, name, v2, i2, description) == Added(models, name, v2, i2, description)
  {
    var once := Added(models, name, v1, i1, description).value;
    assert once[name := New(v2, i2, description).value] == models[name := New(v2, i2, description).value];
  }

  /** The message `load_from_json` logs for a file it cannot load. */
  function LoadWarning(path: string, e: string): string {
    "模型 " + path + " 载入失败: " + e
  }

  class ModelManager {
    var models: map<string, ElementModel>

    /** `ModelManager::new`: no models. */
    constructor ()
      ensures models == map[]
    {
      models := map[];
    }

    /** `add`, and `add_model` which only takes the lock: `Some` is the
        reason of the panic, in which case nothing changed. */
    method Add(name: string, vertices: seq<real>, indices: seq<nat>, description: string)
      returns (panicked: Option<string>)
      modifies this
      ensures panicked.None? <==> Added(old(models), name, vertices, indices, description).Ok?
      ensures panicked.None? ==> models == Added(old(models), name, vertices, indices, description).value
      ensures panicked.Some? ==> models == old(models)
      ensures panicked.Some? ==> panicked.value == Added(old(models), name, vertices, indices, description).reason
    {
      var model := New(vertices, indices, description);
      match model {
        case Ok(m) =>
          models := models[name := m];
          panicked := None;
        case Err(e) =>
          panicked := Some(e);
        case Panic(e) =>
          panicked := Some(e);
      }
    }

    /** `get`: the model registered under the name. */
    function Get(name: string): (r: Option<ElementModel>)
      reads this
      ensures r.Some? <==> name in models
      ensures r.Some? ==> r.value == models[name]
    {
      if name in models then Some(models[name]) else None
    }

    /** The wrapper's `load_from_json(path)`: a file that fails to load is
        logged and the registry is left alone; a file that loads is added
        under the `name` it holds, not under its path. A panic of the
        loader or of `add` is `panicked`. */
    method LoadFromJson(path: string, doc: Document) returns (warning: Option<string>, panicked: Option<string>)
      modifies this
      ensures LoadFromFile(doc).Err? ==>
        warning == Some(LoadWarning(path, LoadFromFile(doc).msg)) && panicked.None? && models == old(models)
      ensures LoadFromFile(doc).Panic? ==>
        warning.None? && panicked == Some(LoadFromFile(doc).reason) && models == old(models)
      ensures LoadFromFile(doc).Ok? ==>
        var d := LoadFromFile(doc).value;
        var added := Added(old(models), d.name, d.vertices, d.indices, d.description);
        warning.None? &&
        (added.Ok? ==> panicked.None? && models == added.value) &&
        (!added.Ok? ==> panicked == Some(added.reason) && models == old(models))
    {
      var loaded := LoadFromFile(doc);
      warning, panicked := None, None;
      match loaded {
        case Err(e) =>
          warning := Some(LoadWarning(path, e));
        case Panic(e) =>
          panicked := Some(e);
        case Ok(d) =>
          panicked := Add(d.name, d.vertices, d.indices, d.description);
      }
    }

    /** `draw_model`: a registered model is drawn, with its element count,
        and the set is not touched; a missing one is reported to the set,
        which warns the first time only. */
    method DrawModel(notFound: NameSet, name: string) returns (drawn: Option<int>, warned: bool)
      modifies notFound
      ensures name in models ==> drawn == Some(DrawCount(models[name])) && !warned && notFound.names == old(notFound.names)
      ensures name !in models ==> drawn.None? && (warned <==> name !in old(notFound.names))
      ensures name !in models ==> notFound.names == old(notFound.names) + {name}
    {
      var model := Get(name);
      if model.Some? {
        drawn, warned := Some(DrawCount(model.value)), false;
      } else {
        drawn := None;
        warned := notFound.Report(name);
      }
    }
  }

  /** A successful load registers the model under the `name` of the file,
      with the file's vertices and indices. */
  lemma LoadRegistersName(models: map<string, ElementModel>, d: ElementDoc)
    requires forall k :: 0 <= k < |d.indices| ==> d.indices[k] < 0x1_0000_0000
    requires New(d.vertices, d.indices, d.description).Ok?
    ensures LoadFromFile(Parsed(Encode(d))) == Ok(d)
    ensures var r := Added(models, d.name, d.vertices, d.indices, d.description);
      r.Ok? && d.name in r.value && r.value[d.name].vertices == d.vertices && r.value[d.name].indices == d.indices
  {
    ValidateEncode(d);
  }
}
