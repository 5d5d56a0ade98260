/**
 * The Python operations the program applies to decoded JSON values that can
 * raise: `.get`, iteration, `len`, `key in data` and `data[key]`, each with
 * the built-in exception Python raises for a value of the wrong type.
 */
module PyJson {
  import opened Wrappers
  import opened JsonModel
  import opened Exceptions

  /** The AttributeError Python raises for `.get` on a value that is not a dict. */
  function NoGet(v: Json): Error {
    Builtin(AttributeError, "'" + TypeName(v) + "' object has no attribute 'get'")
  }

  /** The TypeError of a `for` loop over a value that is not iterable. */
  function NotIterable(v: Json): Error {
    Builtin(TypeError, "'" + TypeName(v) + "' object is not iterable")
  }

  /** The values `len` accepts: lists, strs and dicts. */
  predicate Sized(v: Json) {
    v.JArr? || v.JStr? || v.JObj?
  }

  /** The TypeError of `len` on a value without a length. */
  function NoLen(v: Json): Error {
    Builtin(TypeError, "object of type '" + TypeName(v) + "' has no len()")
  }

  /** `p in s` for two strs: `p` occurs in `s` at some position. */
  predicate IsSubstring(p: string, s: string)
    decreases |s|
  {
    (|p| <= |s| && s[..|p|] == p) || (s != [] && IsSubstring(p, s[1..]))
  }

  /**
   * `key in data`: a dict's keys, a list's items or a substring of a str;
   * any other value raises TypeError.
   */
  function Contains(data: Json, key: string): (r: Result<bool, Error>)
    ensures r.Failure? <==> !Sized(data)
    ensures r.Failure? ==> r.error == Builtin(TypeError, "argument of type '" + TypeName(data) + "' is not iterable")
    ensures data.JObj? ==> r == Success(Lookup(data.fields, key).Some?)
    ensures data.JArr? ==> r == Success(JStr(key) in data.items)
  {
    match data
    case JObj(fs) => Success(Lookup(fs, key).Some?)
    case JArr(xs) => Success(JStr(key) in xs)
    case JStr(s) => Success(IsSubstring(key, s))
    case _ => Failure(Builtin(TypeError, "argument of type '" + TypeName(data) + "' is not iterable"))
  }

  /**
   * `data[key]`: the value a dict binds to the key; KeyError for a dict
   * without it, TypeError for anything that is not a dict.
   */
  function Subscript(data: Json, key: string): (r: Result<Json, Error>)
    ensures r.Success? <==> data.JObj? && Lookup(data.fields, key).Some?
    ensures r.Success? ==> r.value == Lookup(data.fields, key).value
    ensures r.Failure? ==> r.error.Builtin? && (r.error.kind == KeyError <==> data.JObj?)
  {
    match data
    case JObj(fs) =>
      if Lookup(fs, key).Some? then Success(Lookup(fs, key).value) else Failure(Builtin(KeyError, StrRepr(key)))
    case JArr(_) => Failure(Builtin(TypeError, "list indices must be integers or slices, not str"))
    case JStr(_) => Failure(Builtin(TypeError, "string indices must be integers, not 'str'"))
    case _ => Failure(Builtin(TypeError, "'" + TypeName(data) + "' object is not subscriptable"))
  }
}
