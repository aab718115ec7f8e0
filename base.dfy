/** Values shared by every module of the model: an optional value, a result that
    carries either a value or the Python exception the source raises, and
    file-system paths as sequences of components. */
module Base {

  datatype Option<+T> = None | Some(value: T) {
    /** Python's `x or default` for an optional value. */
    function GetOr(default: T): T {
      match this
      case Some(v) => v
      case None => default
    }
  }

  /** The Python exception classes the modelled code raises or catches. */
  datatype PyError =
    | FileNotFoundError
    | JsonDecodeError      // json.JSONDecodeError, a subclass of ValueError
    | ValueError
    | KeyError
    | TypeError
    | AttributeError
    | RuntimeError
    | ImportError

  datatype Result<+R> = Success(value: R) | Failure(error: PyError) {
    predicate IsFailure() { Failure? }

    function PropagateFailure<U>(): Result<U>
      requires Failure?
    {
      Failure(error)
    }

    function Extract(): R
      requires Success?
    {
      value
    }
  }

  /** A pathlib path, kept as its sequence of components. */
  datatype Path = Path(parts: seq<string>)

  /** `p / name`: appends one component. */
  function Join(p: Path, name: string): (r: Path)
    ensures |r.parts| == |p.parts| + 1 && r.parts[|p.parts|] == name
    ensures r.parts[..|p.parts|] == p.parts
  {
    Path(p.parts + [name])
  }

  /** `p.parent`: drops the last component; the parent of a path without
      components is the path itself. */
  function Parent(p: Path): (r: Path)
    ensures |p.parts| > 0 ==> |r.parts| + 1 == |p.parts| && r.parts == p.parts[..|r.parts|]
    ensures |p.parts| == 0 ==> r == p
  {
    if |p.parts| == 0 then p else Path(p.parts[..|p.parts| - 1])
  }
}
