// JSON values as serde_json holds them: an object is a map from keys to values.

module Json {
  import opened Options

  datatype Json =
    | Null
    | Bool(b: bool)
    | Num(n: int)
    | Str(s: string)
    | Arr(items: seq<Json>)
    | Obj(fields: map<string, Json>)

  // Value::get with a key: absent on anything but an object.
  function Get(v: Json, key: string): Option<Json> {
    if v.Obj? && key in v.fields then Some(v.fields[key]) else None
  }

  function AsStr(v: Option<Json>): Option<string> {
    if v.Some? && v.value.Str? then Some(v.value.s) else None
  }

  // The string elements of an array, in order; other elements are skipped.
  function Strings(items: seq<Json>): (r: seq<string>)
    ensures forall x :: x in r <==> Str(x) in items
  {
    if items == [] then []
    else (if items[0].Str? then [items[0].s] else []) + Strings(items[1..])
  }
}
