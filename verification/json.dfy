/**
 * Decoded JSON documents as Python's `json` module hands them to the program
 * (dicts, lists, str, int, bool, None), with the few Python operations the
 * program applies to them: truthiness, `dict.get`, iteration and `repr`.
 */
module JsonModel {
  import opened Wrappers
  import Text

  /** A decoded JSON value. Objects keep their fields in document order. */
  datatype Json =
    | JNull
    | JBool(b: bool)
    | JInt(i: int)
    | JStr(s: string)
    | JArr(items: seq<Json>)
    | JObj(fields: seq<(string, Json)>)

  /** Python truthiness: None, False, 0, "", [] and {} are false. */
  predicate Truthy(v: Json) {
    match v
    case JNull => false
    case JBool(b) => b
    case JInt(i) => i != 0
    case JStr(s) => s != ""
    case JArr(xs) => xs != []
    case JObj(fs) => fs != []
  }

  /** The value bound to `key`; a repeated key keeps its last binding, as `json.load` does. */
  function Lookup(fields: seq<(string, Json)>, key: string): (r: Option<Json>)
    ensures r.None? <==> forall k :: 0 <= k < |fields| ==> fields[k].0 != key
    ensures r.Some? ==> exists k :: 0 <= k < |fields| && fields[k] == (key, r.value)
    decreases |fields|
  {
    if fields == [] then None
    else if fields[|fields| - 1].0 == key then Some(fields[|fields| - 1].1)
    else Lookup(fields[..|fields| - 1], key)
  }

  /** `d.get(key)` on a dict: the bound value, or None when the key is absent. */
  function Get(fields: seq<(string, Json)>, key: string): (r: Json)
    ensures (forall k :: 0 <= k < |fields| ==> fields[k].0 != key) ==> r == JNull
  {
    Lookup(fields, key).GetOr(JNull)
  }

  /** What a Python `for` loop visits: list items, a string's characters, a dict's keys; None when not iterable. */
  function Elements(v: Json): (r: Option<seq<Json>>)
    ensures r.None? <==> (v.JNull? || v.JBool? || v.JInt?)
    ensures v.JArr? ==> r == Some(v.items)
    ensures r.Some? ==> (|r.value| == 0 <==> !Truthy(v))
  {
    match v
    case JArr(xs) => Some(xs)
    case JStr(s) => Some(seq(|s|, k requires 0 <= k < |s| => JStr([s[k]])))
    case JObj(fs) => Some(seq(|fs|, k requires 0 <= k < |fs| => JStr(fs[k].0)))
    case _ => None
  }

  /** Python's type name of a decoded value, as error messages print it. */
  function TypeName(v: Json): string {
    match v
    case JNull => "NoneType"
    case JBool(_) => "bool"
    case JInt(_) => "int"
    case JStr(_) => "str"
    case JArr(_) => "list"
    case JObj(_) => "dict"
  }

  function HexDigit(d: nat): char
    requires d < 16
  {
    "0123456789abcdef"[d]
  }

  /** One character of a str repr between quotes `q`. */
  function EscapeChar(c: char, q: char): string {
    if c == '\\' then "\\\\"
    else if c == q then ['\\', q]
    else if c == '\t' then "\\t"
    else if c == '\n' then "\\n"
    else if c == '\r' then "\\r"
    else if c < ' ' || c as int == 0x7f then "\\x" + [HexDigit(c as int / 16), HexDigit(c as int % 16)]
    else [c]
  }

  function EscapeAll(s: string, q: char): string
    decreases |s|
  {
    if s == [] then "" else EscapeAll(s[..|s| - 1], q) + EscapeChar(s[|s| - 1], q)
  }

  /** Python's `repr(str)`: single quotes unless the text holds a single quote and no double quote. */
  function StrRepr(s: string): string {
    var q := if '\'' in s && '"' !in s then '"' else '\'';
    [q] + EscapeAll(s, q) + [q]
  }

  /** Python's `repr` of a decoded value (also its `str` inside an f-string, for lists and dicts). */
  function Repr(v: Json): string
    decreases v, 1
  {
    match v
    case JNull => "None"
    case JBool(b) => if b then "True" else "False"
    case JInt(i) => Text.IntToString(i)
    case JStr(s) => StrRepr(s)
    case JArr(xs) => "[" + Text.Join(ReprItems(v, xs), ", ") + "]"
    case JObj(fs) => "{" + Text.Join(ReprFields(v, fs), ", ") + "}"
  }

  function ReprItems(parent: Json, xs: seq<Json>): seq<string>
    requires forall k :: 0 <= k < |xs| ==> xs[k] < parent
    decreases parent, 0, |xs|
  {
    if xs == [] then [] else ReprItems(parent, xs[..|xs| - 1]) + [Repr(xs[|xs| - 1])]
  }

  function ReprFields(parent: Json, fs: seq<(string, Json)>): seq<string>
    requires forall k :: 0 <= k < |fs| ==> fs[k].1 < parent
    decreases parent, 0, |fs|
  {
    if fs == [] then [] else ReprFields(parent, fs[..|fs| - 1]) + [StrRepr(fs[|fs| - 1].0) + ": " + Repr(fs[|fs| - 1].1)]
  }

  /** Python's `str` of a decoded value inside an f-string: a str prints bare, anything else as its repr. */
  function Str(v: Json): string {
    if v.JStr? then v.s else Repr(v)
  }
}
