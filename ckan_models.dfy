/**
 * The records the CKAN client exchanges. Their Rust definitions are not part of this
 * model; each is declared with exactly the fields the modelled code reads.
 */
module CkanModels {
  import opened Wrappers

  /** A JSON value as `serde_json::Value` holds it (numbers restricted to integers). */
  datatype Json =
    | Null
    | Bool(b: bool)
    | Num(n: int)
    | Str(s: string)
    | Arr(items: seq<Json>)
    | Obj(fields: seq<(string, Json)>)

  /** The value stored under `key` in an object, as `Value::get` finds it. */
  function Get(j: Json, key: string): (r: Option<Json>)
    ensures r.Some? ==> j.Obj? && exists i :: 0 <= i < |j.fields| && j.fields[i] == (key, r.value)
  {
    if j.Obj? then Lookup(j.fields, key) else None
  }

  function Lookup(fields: seq<(string, Json)>, key: string): (r: Option<Json>)
    ensures r.Some? ==> exists i :: 0 <= i < |fields| && fields[i] == (key, r.value)
    ensures r.None? ==> forall i :: 0 <= i < |fields| ==> fields[i].0 != key
  {
    if fields == [] then None
    else if fields[0].0 == key then Some(fields[0].1)
    else Lookup(fields[1..], key)
  }

  /** A file or link attached to a dataset. */
  datatype Resource = Resource(
    id: Option<string>,
    name: Option<string>,
    url: Option<string>,
    format: Option<string>,
    size: Option<int>,
    description: Option<string>,
    urlType: Option<string>)

  /** A dataset (CKAN "package"), with the fields the client reads. */
  datatype Package = Package(
    id: Option<string>,
    name: string,
    title: Option<string>,
    resources: Option<seq<Resource>>)

  /** The `{success, result}` envelope of every CKAN action response. */
  datatype ActionResponse = ActionResponse(success: bool, result: Option<Json>)
}
