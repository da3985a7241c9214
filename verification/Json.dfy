// JSON values as the settings layers hold them. A number is only ever
// compared, so it is an integer here; an object is a map from key to value.
module JsonValues {
  import opened Basics

  datatype Json =
    | Null
    | Bool(b: bool)
    | Num(n: int)
    | Str(s: string)
    | Arr(items: seq<Json>)
    | Obj(fields: map<string, Json>)

  // The keys from the root down to a value.
  type Path = seq<string>

  const EMPTY_OBJECT: Json := Obj(map[])

  // The value `path` leads to, through objects only.
  function At(v: Json, path: Path): Option<Json> {
    if path == [] then Some(v)
    else if v.Obj? && path[0] in v.fields then At(v.fields[path[0]], path[1..])
    else None
  }

  lemma {:induction false} AtConcat(v: Json, p: Path, q: Path)
    ensures At(v, p + q) == (if At(v, p).Some? then At(At(v, p).value, q) else None)
  {
    if p == [] {
      assert p + q == q;
    } else {
      assert (p + q)[1..] == p[1..] + q && (p + q)[0] == p[0];
      if v.Obj? && p[0] in v.fields {
        AtConcat(v.fields[p[0]], p[1..], q);
      }
    }
  }

  // `get(key)` on an object.
  function Field(v: Json, key: string): Option<Json> {
    if v.Obj? && key in v.fields then Some(v.fields[key]) else None
  }
}
