/** src/shader/mod.rs: the `ShaderManager` that loads every shader source of
    a directory, pairs vertex and fragment stages by file stem, compiles and
    links them, and keeps one program per stem; and `get`, which warns once
    per missing name.

    The directory listing, the file reads and the GL compile and link calls
    are inputs: the listing is a sequence of entries, a read that fails is an
    entry without content, and the driver is a pair of functions that give a
    shader or program name, or nothing on failure. */
module Shaders {
  import opened Outcome
  import opened WarnOnce

  /** One item of `read_dir`: an item that could not be read, or a file with
      its `file_stem()`, its `extension()` and its content (`None` when
      `read_to_string` fails). */
  datatype DirEntry =
    | Unreadable
    | File(stem: Option<string>, ext: Option<string>, content: Option<string>)

  datatype Stage = Vertex | Fragment

  /** `complie_shader` and `link_program`: `None` is an `Err`. */
  datatype Gl = Gl(compile: (Stage, string) -> Option<nat>, link: (nat, nat) -> Option<nat>)

  /** The extension sets `vert_ext` and `frag_ext`. */
  const VertExt: set<string> := {"vert", "vs"}
  const FragExt: set<string> := {"frag", "fs"}

  // ---------------------------------------------------------------------------
  // The first loop: sources by stem
  // ---------------------------------------------------------------------------

  /** Whether the loop keeps an entry for the given extension set: it was
      read, its content was read, and it has an extension in the set and a stem. */
  predicate Keeps(e: DirEntry, exts: set<string>) {
    e.File? && e.content.Some? && e.ext.Some? && e.stem.Some? && e.ext.value in exts
  }

  /** The map the loop fills for one extension set: each kept entry inserts
      its content under its stem, so a later entry with the same stem wins. */
  function Codes(entries: seq<DirEntry>, exts: set<string>): map<string, string>
    decreases |entries|
  {
    if |entries| == 0 then map[]
    else
      var before := Codes(entries[..|entries| - 1], exts);
      var e := entries[|entries| - 1];
      if Keeps(e, exts) then before[e.stem.value := e.content.value] else before
  }

  /** A stem has a source exactly when some kept entry has that stem, and its
      source is the content of the last such entry. */
  lemma {:induction false} CodesMeaning(entries: seq<DirEntry>, exts: set<string>, s: string)
    ensures s in Codes(entries, exts) <==>
      exists i :: 0 <= i < |entries| && Keeps(entries[i], exts) && entries[i].stem.value == s
    ensures s in Codes(entries, exts) ==>
      exists i :: 0 <= i < |entries| && Keeps(entries[i], exts) && entries[i].stem.value == s &&
        Codes(entries, exts)[s] == entries[i].content.value &&
        forall j :: i < j < |entries| && Keeps(entries[j], exts) ==> entries[j].stem.value != s
    decreases |entries|
  {
    if |entries| > 0 {
      var init := entries[..|entries| - 1];
      var last := |entries| - 1;
      CodesMeaning(init, exts, s);
      assert forall i :: 0 <= i < last ==> init[i] == entries[i];
      if Keeps(entries[last], exts) && entries[last].stem.value == s {
        assert Codes(entries, exts)[s] == entries[last].content.value;
      } else if s in Codes(init, exts) {
        var i :| 0 <= i < |init| && Keeps(init[i], exts) && init[i].stem.value == s &&
          Codes(init, exts)[s] == init[i].content.value &&
          forall j :: i < j < |init| && Keeps(init[j], exts) ==> init[j].stem.value != s;
        assert entries[i] == init[i];
      }
    }
  }

  /** The loop of lines 48-93 on the two maps. */
  method Classify(entries: seq<DirEntry>) returns (vertCodes: map<string, string>, fragCodes: map<string, string>)
    ensures vertCodes == Codes(entries, VertExt) && fragCodes == Codes(entries, FragExt)
  {
    vertCodes, fragCodes := map[], map[];
    for i := 0 to |entries|
      invariant vertCodes == Codes(entries[..i], VertExt) && fragCodes == Codes(entries[..i], FragExt)
    {
      assert entries[..i + 1][..i] == entries[..i];
      var entry := entries[i];
      if entry.Unreadable? {
        continue;
      }
      if entry.content.None? {
        continue;
      }
      if entry.ext.None? {
        continue;
      }
      if entry.stem.None? {
        continue;
      }
      var ext, filename := entry.ext.value, entry.stem.value;
      if ext in VertExt {
        vertCodes := vertCodes[filename := entry.content.value];
      } else if ext in FragExt {
        fragCodes := fragCodes[filename := entry.content.value];
      }
    }
    assert entries[..|entries|] == entries;
  }

  // ---------------------------------------------------------------------------
  // Pairing, compiling, linking
  // ---------------------------------------------------------------------------

  /** The program of one stem: both stages compiled and the link succeeded. */
  function Program(gl: Gl, vert: string, frag: string): Option<nat> {
    match (gl.compile(Vertex, vert), gl.compile(Fragment, frag))
    case (Some(v), Some(f)) => gl.link(v, f)
    case _ => None
  }

  /** The programs a load adds: one for every stem with both a vertex and a
      fragment source whose stages compile and link. A stem with only one
      source, or with a stage that fails, gets none. */
  function Linked(gl: Gl, vert: map<string, string>, frag: map<string, string>): (r: map<string, nat>)
    ensures forall s :: s in r ==> s in vert && s in frag
    ensures forall s :: s in r ==> gl.compile(Vertex, vert[s]).Some? && gl.compile(Fragment, frag[s]).Some?
    ensures forall s :: s in vert && s in frag && Program(gl, vert[s], frag[s]).Some? ==> s in r
  {
    map s | s in vert && s in frag && Program(gl, vert[s], frag[s]).Some? :: Program(gl, vert[s], frag[s]).value
  }

  /** The stems with both sources of which exactly one stage compiles. */
  function OneStageFails(gl: Gl, vert: map<string, string>, frag: map<string, string>): set<string> {
    set s | s in vert && s in frag && gl.compile(Vertex, vert[s]).Some? != gl.compile(Fragment, frag[s]).Some?
  }

  /** The stems that both maps have, with their sources: the two `retain`
      calls of lines 111-112. */
  function Restrict(codes: map<string, string>, keep: set<string>): (r: map<string, string>)
    ensures r.Keys == codes.Keys * keep
    ensures forall s :: s in r ==> r[s] == codes[s]
  {
    map s | s in codes && s in keep :: codes[s]
  }

  /** The compile loops of lines 117-142: one compile result per stem. */
  method CompileAll(gl: Gl, stage: Stage, codes: map<string, string>) returns (shaders: map<string, Option<nat>>)
    ensures shaders.Keys == codes.Keys
    ensures forall s :: s in shaders ==> shaders[s] == gl.compile(stage, codes[s])
  {
    shaders := map[];
    var todo := codes.Keys;
    while todo != {}
      invariant todo <= codes.Keys
      invariant shaders.Keys == codes.Keys - todo
      invariant forall s :: s in shaders ==> shaders[s] == gl.compile(stage, codes[s])
      decreases |todo|
    {
      var path :| path in todo;
      var shader := gl.compile(stage, codes[path]);
      shaders := shaders[path := shader];
      todo := todo - {path};
    }
  }

  /** The stems whose compile succeeded: `retain(|_, shader| shader.is_some())`. */
  function Compiled(shaders: map<string, Option<nat>>): set<string> {
    set s | s in shaders && shaders[s].Some?
  }

  /** After the restricts and the compile loops: the stems whose two stages
      both compiled have both sources, and their program is the link of the
      two compiled stages; the stems with exactly one failed stage are those
      with both sources and unequal compile outcomes. */
  lemma CompiledStages(gl: Gl, vert: map<string, string>, frag: map<string, string>,
                       vs: map<string, Option<nat>>, fs: map<string, Option<nat>>)
    requires vs.Keys == vert.Keys * frag.Keys && fs.Keys == frag.Keys * vert.Keys
    requires forall s :: s in vs ==> vs[s] == gl.compile(Vertex, vert[s])
    requires forall s :: s in fs ==> fs[s] == gl.compile(Fragment, frag[s])
    ensures forall s :: s in Compiled(vs) * Compiled(fs) ==>
      s in vert && s in frag && vs[s].Some? && fs[s].Some? &&
      Program(gl, vert[s], frag[s]) == gl.link(vs[s].value, fs[s].value)
    ensures (Compiled(vs) - Compiled(fs)) + (Compiled(fs) - Compiled(vs)) == OneStageFails(gl, vert, frag)
    ensures forall s :: s in vert && s in frag && Program(gl, vert[s], frag[s]).Some? ==> s in Compiled(vs) * Compiled(fs)
  {
  }

  /** The programs of the stems in `done` that link. */
  ghost function LinkedAmong(gl: Gl, vert: map<string, string>, frag: map<string, string>, done: set<string>): map<string, nat>
    requires done <= vert.Keys * frag.Keys
  {
    map s | s in done && Program(gl, vert[s], frag[s]).Some? :: Program(gl, vert[s], frag[s]).value
  }

  /** One more stem adds its program when it links, and nothing otherwise. */
  lemma LinkedAmongStep(gl: Gl, vert: map<string, string>, frag: map<string, string>, done: set<string>, s: string)
    requires done <= vert.Keys * frag.Keys && s in vert && s in frag
    ensures Program(gl, vert[s], frag[s]).Some? ==>
      LinkedAmong(gl, vert, frag, done + {s}) == LinkedAmong(gl, vert, frag, done)[s := Program(gl, vert[s], frag[s]).value]
    ensures Program(gl, vert[s], frag[s]).None? ==>
      LinkedAmong(gl, vert, frag, done + {s}) == LinkedAmong(gl, vert, frag, done)
  {
  }

  /** Inserting into a merge is inserting into its right-hand map. */
  lemma MergeUpdate<K, V>(a: map<K, V>, b: map<K, V>, k: K, v: V)
    ensures (a + b)[k := v] == a + b[k := v]
  {
  }

  /** The programs of all jointly compiled stems are `Linked`. */
  lemma LinkedIsAdded(gl: Gl, vert: map<string, string>, frag: map<string, string>, stems: set<string>)
    requires forall s :: s in vert && s in frag && Program(gl, vert[s], frag[s]).Some? ==> s in stems
    requires stems <= vert.Keys * frag.Keys
    ensures LinkedAmong(gl, vert, frag, stems) == Linked(gl, vert, frag)
  {
  }

  /** The link loop of lines 160-173 over the stems whose two stages
      compiled: each program that links is inserted under its stem. */
  method LinkAll(gl: Gl, programs0: map<string, nat>, ghost vert: map<string, string>, ghost frag: map<string, string>,
                 vs: map<string, Option<nat>>, fs: map<string, Option<nat>>) returns (programs: map<string, nat>)
    requires forall s :: s in Compiled(vs) * Compiled(fs) ==>
      s in vert && s in frag && vs[s].Some? && fs[s].Some? &&
      Program(gl, vert[s], frag[s]) == gl.link(vs[s].value, fs[s].value)
    requires forall s :: s in vert && s in frag && Program(gl, vert[s], frag[s]).Some? ==> s in Compiled(vs) * Compiled(fs)
    ensures programs == programs0 + Linked(gl, vert, frag)
  {
    var stems := Compiled(vs) * Compiled(fs);
    programs := LinkStems(gl, programs0, vert, frag, vs, fs, stems);
    LinkedIsAdded(gl, vert, frag, stems);
  }

  /** The loop itself, over any set of stems whose stages are compiled. */
  method LinkStems(gl: Gl, programs0: map<string, nat>, ghost vert: map<string, string>, ghost frag: map<string, string>,
                   vs: map<string, Option<nat>>, fs: map<string, Option<nat>>, stems: set<string>)
    returns (programs: map<string, nat>)
    requires stems <= vert.Keys * frag.Keys
    requires forall s :: s in stems ==> s in vs && s in fs && vs[s].Some? && fs[s].Some?
    requires forall s :: s in stems ==> Program(gl, vert[s], frag[s]) == gl.link(vs[s].value, fs[s].value)
    ensures programs == programs0 + LinkedAmong(gl, vert, frag, stems)
  {
    programs := programs0;
    var todo := stems;
    while todo != {}
      invariant todo <= stems
      invariant programs == programs0 + LinkedAmong(gl, vert, frag, stems - todo)
      decreases |todo|
    {
      var path :| path in todo;
      ghost var done := stems - todo;
      assert stems - (todo - {path}) == done + {path};
      LinkedAmongStep(gl, vert, frag, done, path);
      var program := gl.link(vs[path].value, fs[path].value);
      if program.Some? {
        MergeUpdate(programs0, LinkedAmong(gl, vert, frag, done), path, program.value);
        programs := programs[path := program.value];
      }
      todo := todo - {path};
    }
  }

  /** A shader program: the GL name of a linked program. */
  datatype Shader = Shader(program: nat)

  class ShaderManager {
    var programs: map<string, nat>

    /** `ShaderManager::new()`. */
    constructor ()
      ensures programs == map[]
    {
      programs := map[];
    }

    /** `load_from(path)`: an unreadable directory changes nothing. Otherwise
        every stem with a compiled and linked pair is inserted, replacing a
        program of the same stem, and every other program is kept.
        `unpaired` are the stems warned about at lines 99-110 (one source
        only); `unmatched` those warned about at lines 150-155 (both sources,
        one stage failed to compile). */
    method LoadFrom(gl: Gl, dir: Option<seq<DirEntry>>) returns (unpaired: set<string>, unmatched: set<string>)
      modifies this
      ensures dir.None? ==> programs == old(programs) && unpaired == {} && unmatched == {}
      ensures dir.Some? ==>
        var vert, frag := Codes(dir.value, VertExt), Codes(dir.value, FragExt);
        programs == old(programs) + Linked(gl, vert, frag) &&
        unpaired == (vert.Keys - frag.Keys) + (frag.Keys - vert.Keys) &&
        unmatched == OneStageFails(gl, vert, frag)
    {
      if dir.None? {
        return {}, {};
      }
      var vertCodes, fragCodes := Classify(dir.value);
      ghost var vert, frag := vertCodes, fragCodes;
      var vertSet, fragSet := vertCodes.Keys, fragCodes.Keys;
      unpaired := (vertSet - fragSet) + (fragSet - vertSet);
      vertCodes := Restrict(vertCodes, fragSet);
      fragCodes := Restrict(fragCodes, vertSet);
      var vertShader := CompileAll(gl, Vertex, vertCodes);
      var fragShader := CompileAll(gl, Fragment, fragCodes);
      var vertOk, fragOk := Compiled(vertShader), Compiled(fragShader);
      unmatched := (vertOk - fragOk) + (fragOk - vertOk);
      CompiledStages(gl, vert, frag, vertShader, fragShader);
      programs := LinkAll(gl, programs, vert, frag, vertShader, fragShader);
    }

    /** `get(name)`: the program registered under the name, or `None`; a
        missing name is reported to the `NOT_FOUND` set, which warns about it
        only the first time. */
    method Get(notFound: NameSet, name: string) returns (ret: Option<Shader>, warned: bool)
      modifies notFound
      ensures ret.Some? <==> name in programs
      ensures ret.Some? ==> ret.value.program == programs[name]
      ensures warned <==> name !in programs && name !in old(notFound.names)
      ensures notFound.names == if name in programs then old(notFound.names) else old(notFound.names) + {name}
    {
      if name in programs {
        return Some(Shader(programs[name])), false;
      }
      warned := notFound.Report(name);
      ret := None;
    }
  }

  /** A load with an empty listing adds nothing; a stem with a vertex source
      whose fragment source is missing is never added. */
  lemma LinkedNeedsBothSources(gl: Gl, entries: seq<DirEntry>, s: string)
    ensures (forall i :: 0 <= i < |entries| ==> !Keeps(entries[i], FragExt) || entries[i].stem.value != s) ==>
      s !in Linked(gl, Codes(entries, VertExt), Codes(entries, FragExt))
  {
    CodesMeaning(entries, FragExt, s);
  }
}
