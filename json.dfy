/**
 * JSON-shaped Python values: what `json.loads` returns, what the adapters read from
 * their record files, and what flows through the pipeline as dicts.  Numbers are
 * integers only.
 */
module JsonValue {
  import opened PyText

  datatype Option<T> = None | Some(value: T)

  datatype Result<T, E> = Ok(value: T) | Err(error: E)

  datatype Json =
    | JNull
    | JBool(b: bool)
    | JNum(n: int)
    | JStr(s: string)
    | JArr(elems: seq<Json>)
    | JObj(fields: map<string, Json>)

  /** A Python dict with string keys. */
  type Record = map<string, Json>

  predicate IsScalar(v: Json) {
    !v.JArr? && !v.JObj?
  }

  /** `type(v).__name__` */
  function TypeName(v: Json): string {
    match v
    case JNull => "NoneType"
    case JBool(_) => "bool"
    case JNum(_) => "int"
    case JStr(_) => "str"
    case JArr(_) => "list"
    case JObj(_) => "dict"
  }

  /** `d.get(k, default)` */
  function Get(d: Record, k: string, default: Json): Json {
    if k in d then d[k] else default
  }

  /** `bool(v)` */
  predicate Truthy(v: Json) {
    match v
    case JNull => false
    case JBool(b) => b
    case JNum(n) => n != 0
    case JStr(s) => s != []
    case JArr(e) => e != []
    case JObj(f) => f != map[]
  }

  /** `str(v)` for a scalar (the repr of a container is not modelled). */
  function Str(v: Json): string
    requires IsScalar(v)
  {
    match v
    case JNull => "None"
    case JBool(b) => if b then "True" else "False"
    case JNum(n) => Decimal(n)
    case JStr(s) => s
  }

  /** The message of the AttributeError raised when `v` has no method `name`. */
  function NoAttribute(v: Json, name: string): string {
    "'" + TypeName(v) + "' object has no attribute '" + name + "'"
  }

  /** `key in v` for a string key: the answer, or the TypeError message for a value that is not a container. */
  function PyIn(key: string, v: Json): (r: Result<bool, string>)
    ensures r.Err? <==> IsScalar(v) && !v.JStr?
    ensures v.JObj? ==> r == Ok(key in v.fields)
    ensures v.JArr? ==> r == Ok(JStr(key) in v.elems)
    ensures v.JStr? ==> r == Ok(Contains(v.s, key))
  {
    match v
    case JObj(f) => Ok(key in f)
    case JArr(e) => Ok(JStr(key) in e)
    case JStr(s) => Ok(Contains(s, key))
    case _ => Err("argument of type '" + TypeName(v) + "' is not iterable")
  }

  /** Why `sep.join(v)` raises. */
  datatype JoinError =
    | NotIterable(typeName: string)
    | NotAString(index: nat, typeName: string)
    /** A dict of two or more keys joins them in insertion order, which a map does not keep. */
    | UnorderedKeys

  /** The strings of a list, or the first element that is not a string. */
  function ListStrings(elems: seq<Json>, from: nat): (r: Result<seq<string>, JoinError>)
    requires from <= |elems|
    ensures r.Ok? ==> |r.value| == |elems| - from
    ensures r.Ok? ==> forall i :: 0 <= i < |r.value| ==> elems[from + i] == JStr(r.value[i])
    ensures r.Ok? <==> forall i :: from <= i < |elems| ==> elems[i].JStr?
    decreases |elems| - from
  {
    if from == |elems| then Ok([])
    else if !elems[from].JStr? then Err(NotAString(from, TypeName(elems[from])))
    else
      match ListStrings(elems, from + 1)
      case Ok(rest) => Ok([elems[from].s] + rest)
      case Err(e) => Err(e)
  }

  /** The strings `sep.join(v)` concatenates. */
  function JoinParts(v: Json): (r: Result<seq<string>, JoinError>)
    ensures v.JArr? ==> (r.Ok? <==> forall i :: 0 <= i < |v.elems| ==> v.elems[i].JStr?)
    ensures v.JArr? && r.Ok? ==>
      |r.value| == |v.elems| && forall i :: 0 <= i < |v.elems| ==> v.elems[i] == JStr(r.value[i])
    ensures v.JStr? ==> r == Ok(seq(|v.s|, i requires 0 <= i < |v.s| => [v.s[i]]))
    ensures IsScalar(v) && !v.JStr? ==> r == Err(NotIterable(TypeName(v)))
    ensures v.JObj? && |v.fields| == 0 ==> r == Ok([])
    ensures v.JObj? && |v.fields| == 1 ==> r.Ok? && |r.value| == 1 && v.fields.Keys == {r.value[0]}
  {
    match v
    case JArr(e) => ListStrings(e, 0)
    case JStr(s) => Ok(seq(|s|, i requires 0 <= i < |s| => [s[i]]))
    case JObj(f) => if |f| == 0 then Ok([]) else if |f| == 1 then Ok([OnlyKey(f)]) else Err(UnorderedKeys)
    case _ => Err(NotIterable(TypeName(v)))
  }

  /** The key of a one-key dict. */
  function OnlyKey(f: Record): (k: string)
    requires |f| == 1
    ensures f.Keys == {k}
  {
    var k :| k in f;
    assert f.Keys == {k} by {
      var rest := f.Keys - {k};
      assert |rest| == 0;
    }
    k
  }

  /** `sep.join(v)` */
  function JoinWith(sep: string, v: Json): Result<string, JoinError> {
    match JoinParts(v)
    case Ok(parts) => Ok(Join(sep, parts))
    case Err(e) => Err(e)
  }

  /** Joining a list of strings takes every element exactly as it is. */
  lemma JoinListOfStrings(sep: string, parts: seq<string>)
    ensures JoinWith(sep, JArr(seq(|parts|, i requires 0 <= i < |parts| => JStr(parts[i])))) == Ok(Join(sep, parts))
  {
    var v := JArr(seq(|parts|, i requires 0 <= i < |parts| => JStr(parts[i])));
    var r := JoinParts(v);
    assert r.Ok?;
    assert r.value == parts;
  }
}
