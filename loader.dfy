/** A character's model configuration (`.model3.json`) and the asset paths
    derived from it: the moc file, the textures, the motion groups and the
    expressions, all relative to the runtime directory. */
module Loader {
  import opened Base
  import opened Json
  import Library

  // ---------------------------------------------------------------------
  // Reading the configuration
  // ---------------------------------------------------------------------

  /** The error `load_model_config` raises for a file it cannot read: a
      missing file raises FileNotFoundError, text that does not parse as JSON
      raises JSONDecodeError. */
  function LoadError(file: ConfigFile): (e: PyError)
    requires !file.Parsed?
    ensures file.Missing? <==> e == FileNotFoundError
    ensures file.Undecodable? ==> e == JsonDecodeError
  {
    if file.Missing? then FileNotFoundError else JsonDecodeError
  }

  /** The configuration a getter works on: the cached one while it is
      truthy, otherwise the one `load_model_config` reads now. */
  function Cached(config: Json, file: ConfigFile): (r: Result<Json>)
    ensures Truthy(config) ==> r == Success(config)
    ensures !Truthy(config) && file.Parsed? ==> r == Success(file.doc)
    ensures !Truthy(config) && !file.Parsed? ==> r.Failure? && r.error == LoadError(file)
  {
    if Truthy(config) then Success(config)
    else if file.Parsed? then Success(file.doc)
    else Failure(LoadError(file))
  }

  /** The cache after a getter ran: a load happens only while the cache is
      falsy, and it only stores a document that parsed. */
  function Reloaded(config: Json, file: ConfigFile): (r: Json)
    ensures Truthy(config) || !file.Parsed? ==> r == config
    ensures !Truthy(config) && file.Parsed? ==> r == file.doc
  {
    if !Truthy(config) && file.Parsed? then file.doc else config
  }

  /** The value stored under `key` in a dict; nothing for any other value. */
  function Member(d: Json, key: string): Option<Json> {
    if d.Obj? then Lookup(d.members, key) else None
  }

  /** `config.get("FileReferences", {})` for a dict `config`. */
  function RefsOf(config: Json): Json {
    Member(config, "FileReferences").GetOr(Obj([]))
  }

  /** Both `.get` calls the getters start with succeed: the configuration
      and its `FileReferences` are dicts. */
  predicate HasRefs(config: Json) {
    config.Obj? && RefsOf(config).Obj?
  }

  // ---------------------------------------------------------------------
  // Moc file and textures
  // ---------------------------------------------------------------------

  /** The `Moc` file name when it is a string. */
  function MocName(config: Json): string {
    match Member(RefsOf(config), "Moc")
    case Some(Str(s)) => s
    case _ => ""
  }

  /** The path `get_moc_path` returns for an already loaded configuration:
      a missing or empty `Moc` raises ValueError. */
  function MocPath(runtime: Path, config: Json): (r: Result<Path>)
    ensures !HasRefs(config) ==> r == Failure(AttributeError)
    ensures HasRefs(config) && !Truthy(Member(RefsOf(config), "Moc").GetOr(Null)) ==> r == Failure(ValueError)
    ensures r.Success? <==> HasRefs(config) && Member(RefsOf(config), "Moc") == Some(Str(MocName(config))) && MocName(config) != []
    ensures r.Success? ==> r.value == Join(runtime, MocName(config))
  {
    var refs :- Get(config, "FileReferences", Obj([]));
    var moc :- Get(refs, "Moc", Null);
    if !Truthy(moc) then Failure(ValueError) else JoinJson(runtime, moc)
  }

  /** `[runtime / e for e in entries]`: the first entry that is not a string
      raises TypeError. */
  function JoinEach(runtime: Path, entries: seq<Json>): (r: Result<seq<Path>>)
    ensures r.Success? <==> forall i :: 0 <= i < |entries| ==> entries[i].Str?
    ensures r.Failure? ==> r.error == TypeError
    ensures r.Success? ==> |r.value| == |entries|
                           && forall i :: 0 <= i < |entries| ==> r.value[i] == Join(runtime, entries[i].s)
    decreases |entries|
  {
    if entries == [] then Success([])
    else
      var head :- JoinJson(runtime, entries[0]);
      var tail :- JoinEach(runtime, entries[1..]);
      assert forall i :: 0 < i < |entries| ==> entries[i] == entries[1..][i - 1];
      Success([head] + tail)
  }

  /** The paths `get_texture_paths` returns for an already loaded
      configuration. */
  function TexturePaths(runtime: Path, config: Json): (r: Result<seq<Path>>)
    ensures !HasRefs(config) ==> r == Failure(AttributeError)
    ensures HasRefs(config) && Member(RefsOf(config), "Textures").None? ==> r == Success([])
    ensures HasRefs(config) && Member(RefsOf(config), "Textures") == Some(Arr(Textures(config))) ==>
              (r.Success? <==> forall i :: 0 <= i < |Textures(config)| ==> Textures(config)[i].Str?)
    ensures HasRefs(config) && Member(RefsOf(config), "Textures") == Some(Arr(Textures(config))) && r.Success? ==>
              |r.value| == |Textures(config)|
              && forall i :: 0 <= i < |r.value| ==> r.value[i] == Join(runtime, Textures(config)[i].s)
  {
    var refs :- Get(config, "FileReferences", Obj([]));
    var textures :- Get(refs, "Textures", Arr([]));
    var entries :- Iterate(textures);
    JoinEach(runtime, entries)
  }

  /** The entries of a `Textures` list. */
  function Textures(config: Json): seq<Json> {
    match Member(RefsOf(config), "Textures")
    case Some(Arr(items)) => items
    case _ => []
  }

  // ---------------------------------------------------------------------
  // Loops that fill a dict
  // ---------------------------------------------------------------------

  /** What one pass of a dict-filling loop does with an entry: raise, store
      nothing, or store a value under a key. */
  datatype Pass<K, V> = Raise(error: PyError) | Skip | Put(key: K, value: V)

  /** The dict a loop builds from `acc` by running `pass` over `entries`;
      the first entry that raises ends the loop and the whole call. */
  function FillMap<E, K, V>(pass: E -> Pass<K, V>, acc: map<K, V>, entries: seq<E>): (r: Result<map<K, V>>)
    ensures r.Success? <==> forall i :: 0 <= i < |entries| ==> !pass(entries[i]).Raise?
    ensures r.Failure? ==> exists i :: 0 <= i < |entries| && pass(entries[i]) == Raise(r.error)
                                       && forall j :: 0 <= j < i ==> !pass(entries[j]).Raise?
    decreases |entries|
  {
    if entries == [] then Success(acc)
    else
      assert forall i :: 0 < i < |entries| ==> entries[i] == entries[1..][i - 1];
      match pass(entries[0])
      case Raise(e) => Failure(e)
      case Skip => FillMap(pass, acc, entries[1..])
      case Put(k, v) => FillMap(pass, acc[k := v], entries[1..])
  }

  /** The keys the passes over `entries` store. */
  function PutKeys<E, K(!new), V>(pass: E -> Pass<K, V>, entries: seq<E>): (r: set<K>)
    ensures forall k :: k in r <==> exists i :: 0 <= i < |entries| && pass(entries[i]).Put? && pass(entries[i]).key == k
    decreases |entries|
  {
    if entries == [] then {}
    else
      assert forall i :: 0 < i < |entries| ==> entries[i] == entries[1..][i - 1];
      (if pass(entries[0]).Put? then {pass(entries[0]).key} else {}) + PutKeys(pass, entries[1..])
  }

  /** A loop that does not raise ends with the keys it started with and the
      keys it stored. */
  lemma {:induction false} FillMapKeys<E, K(!new), V>(pass: E -> Pass<K, V>, acc: map<K, V>, entries: seq<E>)
    requires FillMap(pass, acc, entries).Success?
    ensures FillMap(pass, acc, entries).value.Keys == acc.Keys + PutKeys(pass, entries)
    decreases |entries|
  {
    if entries != [] {
      match pass(entries[0])
      case Skip => FillMapKeys(pass, acc, entries[1..]);
      case Put(k, v) => FillMapKeys(pass, acc[k := v], entries[1..]);
    }
  }

  /** A key no pass stores keeps its value. */
  lemma {:induction false} FillMapKeepsOthers<E, K(!new), V>(pass: E -> Pass<K, V>, acc: map<K, V>, entries: seq<E>, k: K)
    requires FillMap(pass, acc, entries).Success?
    requires k in acc && k !in PutKeys(pass, entries)
    ensures k in FillMap(pass, acc, entries).value && FillMap(pass, acc, entries).value[k] == acc[k]
    decreases |entries|
  {
    if entries != [] {
      assert k !in PutKeys(pass, entries[1..]);
      match pass(entries[0])
      case Skip => FillMapKeepsOthers(pass, acc, entries[1..], k);
      case Put(k', v) => FillMapKeepsOthers(pass, acc[k' := v], entries[1..], k);
    }
  }

  /** The last pass that stores a key decides its value. */
  lemma {:induction false} FillMapLastWins<E, K(!new), V>(pass: E -> Pass<K, V>, acc: map<K, V>, entries: seq<E>, i: nat)
    requires FillMap(pass, acc, entries).Success?
    requires i < |entries| && pass(entries[i]).Put?
    requires forall j :: i < j < |entries| ==> !(pass(entries[j]).Put? && pass(entries[j]).key == pass(entries[i]).key)
    ensures pass(entries[i]).key in FillMap(pass, acc, entries).value
    ensures FillMap(pass, acc, entries).value[pass(entries[i]).key] == pass(entries[i]).value
    decreases |entries|
  {
    var rest := entries[1..];
    if i == 0 {
      var k := pass(entries[0]).key;
      assert k !in PutKeys(pass, rest) by {
        forall j | 0 <= j < |rest| ensures !(pass(rest[j]).Put? && pass(rest[j]).key == k) {
          assert rest[j] == entries[j + 1];
        }
      }
      FillMapKeepsOthers(pass, acc[k := pass(entries[0]).value], rest, k);
    } else {
      assert rest[i - 1] == entries[i];
      forall j | i - 1 < j < |rest| ensures !(pass(rest[j]).Put? && pass(rest[j]).key == pass(rest[i - 1]).key) {
        assert rest[j] == entries[j + 1];
      }
      match pass(entries[0])
      case Skip => FillMapLastWins(pass, acc, rest, i - 1);
      case Put(k, v) => FillMapLastWins(pass, acc[k := v], rest, i - 1);
    }
  }

  // ---------------------------------------------------------------------
  // Motions
  // ---------------------------------------------------------------------

  /** The `File` of one motion entry when it is a string. */
  function MotionFile(motion: Json): Option<string> {
    match Member(motion, "File")
    case Some(Str(s)) => Some(s)
    case _ => None
  }

  /** `runtime / motion["File"]`: a dict without `File` raises KeyError; an
      entry that is not a dict, or a `File` that is not a string, raises
      TypeError. */
  function MotionPath(runtime: Path, motion: Json): (r: Result<Path>)
    ensures r.Success? <==> MotionFile(motion).Some?
    ensures r.Success? ==> r.value == Join(runtime, MotionFile(motion).value)
    ensures r.Failure? ==> r.error == (if motion.Obj? && Member(motion, "File").None? then KeyError else TypeError)
  {
    var file :- Subscript(motion, "File");
    JoinJson(runtime, file)
  }

  /** `[runtime / motion["File"] for motion in motions]`: an entry without
      `File` raises KeyError, an entry that is not a dict or whose `File` is
      not a string raises TypeError. */
  function MotionEntries(runtime: Path, motions: seq<Json>): (r: Result<seq<Path>>)
    ensures r.Success? <==> forall i :: 0 <= i < |motions| ==> MotionFile(motions[i]).Some?
    ensures r.Failure? ==> r.error == KeyError || r.error == TypeError
    ensures r.Success? ==> |r.value| == |motions|
                           && forall i :: 0 <= i < |motions| ==> r.value[i] == Join(runtime, MotionFile(motions[i]).value)
    decreases |motions|
  {
    if motions == [] then Success([])
    else
      var head :- MotionPath(runtime, motions[0]);
      var tail :- MotionEntries(runtime, motions[1..]);
      assert forall i :: 0 < i < |motions| ==> motions[i] == motions[1..][i - 1];
      Success([head] + tail)
  }

  /** The list one motion group yields. */
  function MotionFiles(runtime: Path, files: Json): Result<seq<Path>> {
    var motions :- Iterate(files);
    MotionEntries(runtime, motions)
  }

  /** One pass of the loop in `get_motions_path`. */
  function MotionPass(runtime: Path, group: (string, Json)): Pass<string, seq<Path>> {
    match MotionFiles(runtime, group.1)
    case Failure(e) => Raise(e)
    case Success(paths) => Put(group.0, paths)
  }

  function MotionPassFor(runtime: Path): ((string, Json)) -> Pass<string, seq<Path>> {
    group => MotionPass(runtime, group)
  }

  /** The groups of the `Motions` dict, in file order. */
  function MotionGroups(config: Json): seq<(string, Json)> {
    match Member(RefsOf(config), "Motions")
    case Some(Obj(groups)) => groups
    case _ => []
  }

  /** The dict `get_motions_path` returns for an already loaded
      configuration. */
  function MotionsPath(runtime: Path, config: Json): (r: Result<map<string, seq<Path>>>)
    ensures !HasRefs(config) ==> r == Failure(AttributeError)
    ensures HasRefs(config) && Member(RefsOf(config), "Motions").None? ==> r == Success(map[])
    ensures HasRefs(config) && Member(RefsOf(config), "Motions").Some? && !Member(RefsOf(config), "Motions").value.Obj? ==>
              r == Failure(AttributeError)
  {
    var refs :- Get(config, "FileReferences", Obj([]));
    var motions :- Get(refs, "Motions", Obj([]));
    var groups :- Items(motions);
    FillMap(MotionPassFor(runtime), map[], groups)
  }

  /** A successful `get_motions_path` is the loop over the groups of a
      `Motions` dict. */
  lemma {:induction false} MotionsPathIsFill(runtime: Path, config: Json)
    requires MotionsPath(runtime, config).Success?
    ensures MotionsPath(runtime, config) == FillMap(MotionPassFor(runtime), map[], MotionGroups(config))
  {
  }

  /** A successful `get_motions_path` has exactly the configuration's group
      names as keys, and each group's list is built from that group's entries
      (the last one, for a name written twice), one path per entry in order. */
  lemma {:induction false} MotionsPathGroups(runtime: Path, config: Json, name: string)
    requires MotionsPath(runtime, config).Success?
    ensures var r := MotionsPath(runtime, config).value;
            var groups := MotionGroups(config);
            && (name in r <==> exists i :: 0 <= i < |groups| && groups[i].0 == name)
            && (name in r ==> Lookup(groups, name).Some?
                              && MotionFiles(runtime, Lookup(groups, name).value) == Success(r[name]))
  {
    MotionsPathIsFill(runtime, config);
    FillGroups(runtime, MotionGroups(config), name);
  }

  lemma {:induction false} FillGroups(runtime: Path, groups: seq<(string, Json)>, name: string)
    requires FillMap(MotionPassFor(runtime), map[], groups).Success?
    ensures var r := FillMap(MotionPassFor(runtime), map[], groups).value;
            && (name in r <==> exists i :: 0 <= i < |groups| && groups[i].0 == name)
            && (name in r ==> Lookup(groups, name).Some?
                              && MotionFiles(runtime, Lookup(groups, name).value) == Success(r[name]))
  {
    FillGroupNames(runtime, groups, name);
    match Lookup(groups, name)
    case None =>
    case Some(v) =>
      var i :| 0 <= i < |groups| && groups[i] == (name, v) && forall j :: i < j < |groups| ==> groups[j].0 != name;
      GroupsAllPut(runtime, groups);
      FillMapLastWins(MotionPassFor(runtime), map[], groups, i);
  }

  lemma {:induction false} FillGroupNames(runtime: Path, groups: seq<(string, Json)>, name: string)
    requires FillMap(MotionPassFor(runtime), map[], groups).Success?
    ensures name in FillMap(MotionPassFor(runtime), map[], groups).value
            <==> exists i :: 0 <= i < |groups| && groups[i].0 == name
  {
    GroupsAllPut(runtime, groups);
    FillMapKeys(MotionPassFor(runtime), map[], groups);
  }

  /** When no group raises, every group stores its list under its name. */
  lemma {:induction false} GroupsAllPut(runtime: Path, groups: seq<(string, Json)>)
    requires FillMap(MotionPassFor(runtime), map[], groups).Success?
    ensures forall i :: 0 <= i < |groups| ==> MotionPassFor(runtime)(groups[i]) == Put(groups[i].0, MotionFiles(runtime, groups[i].1).value)
  {
  }

  // ---------------------------------------------------------------------
  // Expressions
  // ---------------------------------------------------------------------

  /** One pass of the loop in `get_expressions_path`: an entry that is not a
      dict raises AttributeError; an entry whose `Name` and `File` are both
      truthy stores `runtime / File` under `Name`, which raises TypeError for
      a `File` that is not a string or a `Name` that is a list or a dict. */
  function ExpressionPass(runtime: Path, expr: Json): (r: Pass<Json, Path>)
    ensures r.Put? <==> expr.Obj? && Truthy(Member(expr, "Name").GetOr(Null)) && Member(expr, "File").GetOr(Null).Str?
                        && Member(expr, "File").GetOr(Null).s != [] && Hashable(Member(expr, "Name").GetOr(Null))
    ensures r.Put? ==> r.key == Member(expr, "Name").value && r.value == Join(runtime, Member(expr, "File").value.s)
    ensures r.Skip? <==> expr.Obj? && !(Truthy(Member(expr, "Name").GetOr(Null)) && Truthy(Member(expr, "File").GetOr(Null)))
  {
    if !expr.Obj? then Raise(AttributeError)
    else
      var name := Lookup(expr.members, "Name").GetOr(Null);
      var file := Lookup(expr.members, "File").GetOr(Null);
      if !(Truthy(name) && Truthy(file)) then Skip
      else if !file.Str? || !Hashable(name) then Raise(TypeError)
      else Put(name, Join(runtime, file.s))
  }

  function ExpressionPassFor(runtime: Path): Json -> Pass<Json, Path> {
    expr => ExpressionPass(runtime, expr)
  }

  /** The dict `get_expressions_path` returns for an already loaded
      configuration. */
  function ExpressionsPath(runtime: Path, config: Json): (r: Result<map<Json, Path>>)
    ensures !HasRefs(config) ==> r == Failure(AttributeError)
    ensures HasRefs(config) && Member(RefsOf(config), "Expressions").None? ==> r == Success(map[])
  {
    var refs :- Get(config, "FileReferences", Obj([]));
    var expressions :- Get(refs, "Expressions", Arr([]));
    var entries :- Iterate(expressions);
    FillMap(ExpressionPassFor(runtime), map[], entries)
  }

  /** With a list under `Expressions`, `get_expressions_path` is the loop
      over that list. */
  lemma {:induction false} ExpressionsPathIsFill(runtime: Path, config: Json)
    requires HasRefs(config) && Member(RefsOf(config), "Expressions").Some?
    requires Member(RefsOf(config), "Expressions").value.Arr?
    ensures ExpressionsPath(runtime, config)
            == FillMap(ExpressionPassFor(runtime), map[], Member(RefsOf(config), "Expressions").value.items)
  {
    var refs := RefsOf(config);
    var expressions := Member(refs, "Expressions").value;
    assert Get(config, "FileReferences", Obj([])) == Success(refs);
    assert Get(refs, "Expressions", Arr([])) == Success(expressions);
    assert Iterate(expressions) == Success(expressions.items);
  }

  /** A successful `get_expressions_path` over a list of entries keeps
      exactly the names of the entries whose `Name` and `File` are both
      truthy. */
  lemma {:induction false} ExpressionsKeepNamed(runtime: Path, config: Json, k: Json)
    requires HasRefs(config) && Member(RefsOf(config), "Expressions").Some?
    requires Member(RefsOf(config), "Expressions").value.Arr?
    requires ExpressionsPath(runtime, config).Success?
    ensures var es := Member(RefsOf(config), "Expressions").value.items;
            k in ExpressionsPath(runtime, config).value
            <==> exists j :: 0 <= j < |es| && ExpressionPass(runtime, es[j]).Put? && Member(es[j], "Name") == Some(k)
  {
    var es := Member(RefsOf(config), "Expressions").value.items;
    ExpressionsPathIsFill(runtime, config);
    FillMapKeys(ExpressionPassFor(runtime), map[], es);
  }

  /** The last entry with a given truthy `Name` and a truthy `File` decides
      the path stored under that name. */
  lemma {:induction false} ExpressionsLastWins(runtime: Path, config: Json, i: nat)
    requires HasRefs(config) && Member(RefsOf(config), "Expressions").Some?
    requires Member(RefsOf(config), "Expressions").value.Arr?
    requires ExpressionsPath(runtime, config).Success?
    requires var es := Member(RefsOf(config), "Expressions").value.items;
             && i < |es| && ExpressionPass(runtime, es[i]).Put?
             && forall j :: i < j < |es| ==> !(ExpressionPass(runtime, es[j]).Put? && Member(es[j], "Name") == Member(es[i], "Name"))
    ensures var es := Member(RefsOf(config), "Expressions").value.items;
            var r := ExpressionsPath(runtime, config).value;
            Member(es[i], "Name").value in r
            && r[Member(es[i], "Name").value] == Join(runtime, Member(es[i], "File").value.s)
  {
    var es := Member(RefsOf(config), "Expressions").value.items;
    ExpressionsPathIsFill(runtime, config);
    FillMapLastWins(ExpressionPassFor(runtime), map[], es, i);
  }

  // ---------------------------------------------------------------------
  // The loader object
  // ---------------------------------------------------------------------

  /** A character's model file, its runtime directory and the cached
      configuration (`Null` until a load succeeds). */
  class CharacterLoader {
    const modelPath: Path
    const runtimePath: Path
    var modelConfig: Json

    /** `__init__`: the runtime directory is the model file's parent joined
        with `runtime`; nothing is loaded yet. */
    constructor (modelPath: Path)
      ensures this.modelPath == modelPath
      ensures runtimePath == Join(Parent(modelPath), "runtime")
      ensures modelConfig == Null
    {
      this.modelPath := modelPath;
      runtimePath := Join(Parent(modelPath), "runtime");
      modelConfig := Null;
    }

    /** `load_model_config`: reads the file given as its current contents;
        the cache changes only when the file parses. */
    method LoadModelConfig(file: ConfigFile) returns (r: Result<Json>)
      modifies this`modelConfig
      ensures file.Parsed? ==> r == Success(file.doc) && modelConfig == file.doc
      ensures !file.Parsed? ==> r == Failure(LoadError(file)) && modelConfig == old(modelConfig)
    {
      if file.Missing? {
        return Failure(FileNotFoundError);
      }
      if file.Undecodable? {
        return Failure(JsonDecodeError);
      }
      modelConfig := file.doc;
      r := Success(modelConfig);
    }

    /** The step every getter starts with: load only while the cache is
        falsy. */
    method EnsureLoaded(file: ConfigFile) returns (r: Result<Json>)
      modifies this`modelConfig
      ensures modelConfig == Reloaded(old(modelConfig), file)
      ensures r == Cached(old(modelConfig), file)
      ensures r.Success? ==> r.value == modelConfig
    {
      if !Truthy(modelConfig) {
        var loaded := LoadModelConfig(file);
        if loaded.Failure? {
          return loaded;
        }
      }
      r := Success(modelConfig);
    }

    method GetMocPath(file: ConfigFile) returns (r: Result<Path>)
      modifies this`modelConfig
      ensures modelConfig == Reloaded(old(modelConfig), file)
      ensures r == match Cached(old(modelConfig), file)
                   case Failure(e) => Failure(e)
                   case Success(config) => MocPath(runtimePath, config)
    {
      var config :- EnsureLoaded(file);
      r := MocPath(runtimePath, config);
    }

    method GetTexturePaths(file: ConfigFile) returns (r: Result<seq<Path>>)
      modifies this`modelConfig
      ensures modelConfig == Reloaded(old(modelConfig), file)
      ensures r == match Cached(old(modelConfig), file)
                   case Failure(e) => Failure(e)
                   case Success(config) => TexturePaths(runtimePath, config)
    {
      var config :- EnsureLoaded(file);
      r := TexturePaths(runtimePath, config);
    }

    /** `get_motions_path`: one entry per motion group, filled in file
        order. */
    method GetMotionsPath(file: ConfigFile) returns (r: Result<map<string, seq<Path>>>)
      modifies this`modelConfig
      ensures modelConfig == Reloaded(old(modelConfig), file)
      ensures r == match Cached(old(modelConfig), file)
                   case Failure(e) => Failure(e)
                   case Success(config) => MotionsPath(runtimePath, config)
    {
      var config :- EnsureLoaded(file);
      var refs :- Get(config, "FileReferences", Obj([]));
      var motionsConfig :- Get(refs, "Motions", Obj([]));
      var groups :- Items(motionsConfig);
      var motions: map<string, seq<Path>> := map[];
      var i := 0;
      while i < |groups|
        invariant 0 <= i <= |groups|
        invariant FillMap(MotionPassFor(runtimePath), motions, groups[i..]) == MotionsPath(runtimePath, config)
      {
        assert groups[i..][1..] == groups[i + 1..];
        var files :- MotionFiles(runtimePath, groups[i].1);
        motions := motions[groups[i].0 := files];
        i := i + 1;
      }
      r := Success(motions);
    }

    /** `get_expressions_path`: entries with a truthy `Name` and `File`, a
        later name overwriting an earlier one. */
    method GetExpressionsPath(file: ConfigFile) returns (r: Result<map<Json, Path>>)
      modifies this`modelConfig
      ensures modelConfig == Reloaded(old(modelConfig), file)
      ensures r == match Cached(old(modelConfig), file)
                   case Failure(e) => Failure(e)
                   case Success(config) => ExpressionsPath(runtimePath, config)
    {
      var config :- EnsureLoaded(file);
      var refs :- Get(config, "FileReferences", Obj([]));
      var expressionsConfig :- Get(refs, "Expressions", Arr([]));
      var entries :- Iterate(expressionsConfig);
      var expressions: map<Json, Path> := map[];
      var i := 0;
      while i < |entries|
        invariant 0 <= i <= |entries|
        invariant FillMap(ExpressionPassFor(runtimePath), expressions, entries[i..]) == ExpressionsPath(runtimePath, config)
      {
        assert entries[i..][1..] == entries[i + 1..];
        var expr := entries[i];
        if !expr.Obj? {
          return Failure(AttributeError);
        }
        var name := Lookup(expr.members, "Name").GetOr(Null);
        var filePath := Lookup(expr.members, "File").GetOr(Null);
        if Truthy(name) && Truthy(filePath) {
          var path :- JoinJson(runtimePath, filePath);
          if !Hashable(name) {
            return Failure(TypeError);
          }
          expressions := expressions[name := path];
        }
        i := i + 1;
      }
      r := Success(expressions);
    }
  }

  /** For the model files of the built-in characters, which already sit in a
      `runtime` directory, the derived runtime directory is a `runtime`
      directory inside that one. */
  lemma {:induction false} BuiltInRuntimeIsNested(root: Path)
    ensures var c := Library.Mao(root);
            Join(Parent(c.modelPath), "runtime").parts == root.parts + [Library.MAO_ID, Library.MAO_ID, "runtime", "runtime"]
  {
    var p := Library.Mao(root).modelPath;
    assert Parent(p).parts == p.parts[..|p.parts| - 1];
  }

  /** As written, the directory of a resolved `Moc` file is the model file's
      directory with `runtime` appended, never the model file's directory,
      although a model file names its `Moc` relative to its own directory. */
  lemma {:induction false} MocNotBesideModel(modelPath: Path, config: Json)
    requires MocPath(Join(Parent(modelPath), "runtime"), config).Success?
    ensures var moc := MocPath(Join(Parent(modelPath), "runtime"), config).value;
            Parent(moc) == Join(Parent(modelPath), "runtime") && Parent(moc) != Parent(modelPath)
  {
    var runtime := Join(Parent(modelPath), "runtime");
    var moc := MocPath(runtime, config).value;
    assert moc == Join(runtime, MocName(config));
    assert Parent(moc).parts == moc.parts[..|runtime.parts|] == runtime.parts;
    assert |Parent(moc).parts| != |Parent(modelPath).parts|;
  }

  /** With the runtime directory taken as the model file's own directory,
      the resolved `Moc` file sits beside the model file under the name the
      configuration gives. */
  lemma {:induction false} IntendedMocBesideModel(modelPath: Path, config: Json)
    requires MocPath(Parent(modelPath), config).Success?
    ensures var moc := MocPath(Parent(modelPath), config).value;
            Parent(moc) == Parent(modelPath) && moc.parts[|moc.parts| - 1] == MocName(config)
  {
    var dir := Parent(modelPath);
    var moc := MocPath(dir, config).value;
    assert moc == Join(dir, MocName(config));
    assert Parent(moc).parts == moc.parts[..|dir.parts|] == dir.parts;
  }
}
