/** JSON values as the reply decoder produces them, and the one dictionary
    operation the client applies to them. */
module JsonValue {
  import opened Errors

  datatype Json =
    | JNull
    | JBool(b: bool)
    | JInt(i: int)
    | JStr(s: string)
    | JArr(items: seq<Json>)
    | JObj(fields: map<string, Json>)

  /** `v.get(key, default)`: the member if present, else the default; only a
      dict has `.get`, so any other value raises AttributeError. */
  function Get(v: Json, key: string, default: Json): (r: Result<Json>)
    ensures r.Success? <==> v.JObj?
    ensures r.Failure? ==> r.error == AttributeError
    ensures v.JObj? && key in v.fields ==> r == Success(v.fields[key])
    ensures v.JObj? && key !in v.fields ==> r == Success(default)
  {
    match v
    case JObj(fields) => Success(if key in fields then fields[key] else default)
    case _ => Failure(AttributeError)
  }

  /** Reference reading of a nested member: the value reached by following
      `path` through objects, or None when some level is not an object or
      lacks the key. */
  function Lookup(v: Json, path: seq<string>): Option<Json>
    decreases |path|
  {
    if path == [] then Some(v)
    else if v.JObj? && path[0] in v.fields then Lookup(v.fields[path[0]], path[1..])
    else None
  }

  /** Following a path one key at a time. */
  lemma LookupStep(v: Json, key: string, rest: seq<string>)
    ensures Lookup(v, [key] + rest) ==
            if v.JObj? && key in v.fields then Lookup(v.fields[key], rest) else None
  {
    assert ([key] + rest)[1..] == rest;
  }

  /** True when `path` leads to an object. */
  predicate ObjectAt(v: Json, path: seq<string>)
  {
    Lookup(v, path).Some? && Lookup(v, path).value.JObj?
  }
}
