/** src/texture/mod.rs: the `TextureManager` registry that loads every image
    of a directory under its file stem, and the wrapper's `bind`.

    The directory listing is a sequence of entries; decoding an image into a
    GL texture (`Texture::new_from`) is a function from the path to the
    texture's name, or nothing when it fails. */
module Textures {
  import opened Outcome

  /** What `file_stem()` and `to_str()` give for a path. */
  datatype Stem = NoStem | NotUtf8Stem | StemText(text: string)

  /** One item of `read_dir`: an item that could not be read, or a path
      (`None` when it is not valid UTF-8) with its stem. */
  datatype TexEntry =
    | BadEntry
    | Entry(path: Option<string>, stem: Stem)

  /** The texture an entry stores, under which name: the entry, its path and
      its stem must be readable, and the image must load. */
  function Kept(e: TexEntry, load: string -> Option<nat>): (r: Option<(string, nat)>)
    ensures r.Some? <==> e.Entry? && e.path.Some? && e.stem.StemText? && load(e.path.value).Some?
    ensures r.Some? ==> r.value == (e.stem.text, load(e.path.value).value)
  {
    if e.BadEntry? || e.path.None? || !e.stem.StemText? then None
    else match load(e.path.value)
      case None => None
      case Some(tex) => Some((e.stem.text, tex))
  }

  /** The textures the loop stores from the first n entries: each kept entry
      inserts its texture under its stem, so a later one with the same stem wins. */
  function Loaded(entries: seq<TexEntry>, n: nat, load: string -> Option<nat>): map<string, nat>
    requires n <= |entries|
    decreases n
  {
    if n == 0 then map[]
    else
      var before := Loaded(entries, n - 1, load);
      match Kept(entries[n - 1], load)
      case None => before
      case Some(kept) => before[kept.0 := kept.1]
  }

  /** A name has a texture exactly when some kept entry has that stem, and
      the texture is the one of the last such entry. */
  lemma {:induction false} LoadedMeaning(entries: seq<TexEntry>, n: nat, load: string -> Option<nat>, name: string)
    requires n <= |entries|
    ensures name in Loaded(entries, n, load) <==>
      exists i :: 0 <= i < n && Kept(entries[i], load).Some? && Kept(entries[i], load).value.0 == name
    ensures name in Loaded(entries, n, load) ==>
      exists i :: 0 <= i < n && Kept(entries[i], load) == Some((name, Loaded(entries, n, load)[name])) &&
        forall j :: i < j < n && Kept(entries[j], load).Some? ==> Kept(entries[j], load).value.0 != name
    decreases n
  {
    if n > 0 {
      LoadedMeaning(entries, n - 1, load, name);
      var k := Kept(entries[n - 1], load);
      if k.Some? && k.value.0 == name {
        assert Loaded(entries, n, load)[name] == k.value.1;
      }
    }
  }

  /** What `bind` does: bind a registered texture to the unit, or warn. */
  datatype Binding = Bound(texture: nat, unit: nat) | Missing(name: string)

  /** The warnings a run of `bind` calls emits: one for every call whose name
      is missing, repeated names included. */
  function BindWarnings(textures: map<string, nat>, names: seq<string>): (r: seq<string>)
    ensures |r| <= |names|
    decreases |names|
  {
    if |names| == 0 then []
    else if names[0] in textures then BindWarnings(textures, names[1..])
    else [names[0]] + BindWarnings(textures, names[1..])
  }

  /** Unlike the shader and model lookups, a missing texture is warned about
      on every call: a run of k calls with the same missing name warns k times. */
  lemma {:induction false} BindWarnsEveryTime(textures: map<string, nat>, name: string, k: nat)
    requires name !in textures
    ensures BindWarnings(textures, seq(k, _ => name)) == seq(k, _ => name)
    decreases k
  {
    if k > 0 {
      var calls := seq(k, _ => name);
      assert calls[1..] == seq(k - 1, _ => name);
      BindWarnsEveryTime(textures, name, k - 1);
      assert [name] + seq(k - 1, _ => name) == calls;
    }
  }

  class TextureManager {
    var textures: map<string, nat>

    /** `TextureManager::new`: no textures. */
    constructor ()
      ensures textures == map[]
    {
      textures := map[];
    }

    /** `load_from`: a directory that cannot be read changes nothing;
        otherwise every kept entry is stored under its stem, over whatever
        the registry held, and the other names are kept. */
    method LoadFrom(dir: Option<seq<TexEntry>>, load: string -> Option<nat>)
      modifies this
      ensures dir.None? ==> textures == old(textures)
      ensures dir.Some? ==> textures == old(textures) + Loaded(dir.value, |dir.value|, load)
    {
      if dir.None? {
        return;
      }
      var entries := dir.value;
      for i := 0 to |entries|
        invariant textures == old(textures) + Loaded(entries, i, load)
      {
        var entry := entries[i];
        if entry.BadEntry? || entry.path.None? || !entry.stem.StemText? {
          continue;
        }
        var name := entry.stem.text;
        var tex := load(entry.path.value);
        if tex.None? {
          continue;
        }
        textures := textures[name := tex.value];
      }
    }

    /** `bind`: `contains_key` then `get(..).unwrap()`, which cannot fail. */
    function Bind(name: string, unit: nat): (r: Binding)
      reads this
      ensures r.Bound? <==> name in textures
      ensures r.Bound? ==> r == Bound(textures[name], unit)
      ensures r.Missing? ==> r.name == name
    {
      if name in textures then Bound(textures[name], unit) else Missing(name)
    }
  }
}
