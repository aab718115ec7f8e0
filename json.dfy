/** The value `json.load` returns, and the Python operations the source
    applies to it, each with the exception Python raises when the value has
    the wrong shape. */
module Json {
  import opened Base

  /** A parsed JSON document. Numbers are integers; an object keeps its
      members in file order, and `json.load` gives a later duplicate key the
      last word. */
  datatype Json =
    | Null
    | Bool(b: bool)
    | Num(n: int)
    | Str(s: string)
    | Arr(items: seq<Json>)
    | Obj(members: seq<(string, Json)>)

  /** What reading a configuration file yields: no file at the path, a file
      whose text does not parse as JSON, or the parsed document. Other read
      errors are not modelled. */
  datatype ConfigFile = Missing | Undecodable | Parsed(doc: Json)

  /** Python truthiness of a parsed value (`None`, `False`, `0`, `""`, `[]`
      and `{}` are false). */
  predicate Truthy(j: Json) {
    match j
    case Null => false
    case Bool(b) => b
    case Num(n) => n != 0
    case Str(s) => s != []
    case Arr(items) => items != []
    case Obj(members) => members != []
  }

  /** Lists and dicts cannot be dictionary keys. */
  predicate Hashable(j: Json) {
    !j.Arr? && !j.Obj?
  }

  /** The value stored under `key`, the last member with that key winning. */
  function Lookup(members: seq<(string, Json)>, key: string): (r: Option<Json>)
    ensures r.Some? <==> exists i :: 0 <= i < |members| && members[i].0 == key
    ensures r.Some? ==> exists i :: 0 <= i < |members| && members[i] == (key, r.value)
                                    && forall j :: i < j < |members| ==> members[j].0 != key
  {
    if members == [] then None
    else if members[|members| - 1].0 == key then Some(members[|members| - 1].1)
    else Lookup(members[..|members| - 1], key)
  }

  /** `d.get(key, default)`: only a dict has `get`. */
  function Get(d: Json, key: string, default: Json): (r: Result<Json>)
    ensures r.Failure? <==> !d.Obj?
    ensures r.Failure? ==> r.error == AttributeError
    ensures d.Obj? && (exists i :: 0 <= i < |d.members| && d.members[i].0 == key) ==>
              exists i :: 0 <= i < |d.members| && d.members[i] == (key, r.value)
                          && forall j :: i < j < |d.members| ==> d.members[j].0 != key
    ensures d.Obj? && (forall i :: 0 <= i < |d.members| ==> d.members[i].0 != key) ==>
              r.value == default
  {
    match d
    case Obj(members) => Success(Lookup(members, key).GetOr(default))
    case _ => Failure(AttributeError)
  }

  /** `d[key]` with a string key: a dict without the key raises KeyError;
      a list, a string, a number, a boolean or None raises TypeError. */
  function Subscript(d: Json, key: string): (r: Result<Json>)
    ensures r.Success? <==> d.Obj? && exists i :: 0 <= i < |d.members| && d.members[i].0 == key
    ensures r.Success? ==> exists i :: 0 <= i < |d.members| && d.members[i] == (key, r.value)
                                      && forall j :: i < j < |d.members| ==> d.members[j].0 != key
    ensures r.Failure? ==> r.error == (if d.Obj? then KeyError else TypeError)
  {
    match d
    case Obj(members) =>
      (match Lookup(members, key)
       case Some(v) => Success(v)
       case None => Failure(KeyError))
    case _ => Failure(TypeError)
  }

  /** The elements `for x in j` visits: a list's items, a string's
      characters as one-character strings, a dict's keys; anything else is
      not iterable. */
  function Iterate(j: Json): Result<seq<Json>>
  {
    match j
    case Arr(items) => Success(items)
    case Str(s) => Success(seq(|s|, i requires 0 <= i < |s| => Str([s[i]])))
    case Obj(members) => Success(seq(|members|, i requires 0 <= i < |members| => Str(members[i].0)))
    case _ => Failure(TypeError)
  }

  /** `d.items()`: only a dict has `items`. */
  function Items(d: Json): Result<seq<(string, Json)>>
  {
    match d
    case Obj(members) => Success(members)
    case _ => Failure(AttributeError)
  }

  /** `p / j`: a path may only be joined with a string. */
  function JoinJson(p: Path, j: Json): Result<Path>
  {
    match j
    case Str(s) => Success(Join(p, s))
    case _ => Failure(TypeError)
  }
}
