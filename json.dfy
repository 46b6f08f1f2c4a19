/** JSON values, as `JSON.stringify` sees the objects the worker returns. */
module Json {
  import opened Wrappers
  import opened Records

  datatype Json =
    | Null
    | Bool(b: bool)
    | Number(n: int)
    | Str(s: string)
    | Array(items: seq<Json>)
    | Object(members: seq<(string, Json)>)

  /** A property whose value may be `undefined`: `JSON.stringify` leaves it out,
      so the key is present exactly when the value is defined, and reads back as it. */
  function Optional(key: string, value: Option<Json>): (m: seq<(string, Json)>)
    ensures Keys(m) == if value.Some? then {key} else {}
    ensures Lookup(m, key) == value
  {
    if value.Some? then [(key, value.value)] else []
  }
}
