/** JSON documents as the `jsonb` columns and request bodies carry them. */
module Json {
  import opened Wrappers

  /** Numbers are exact rationals; JavaScript's doubles, NaN and -0 are not modelled. */
  datatype Json =
    | JNull
    | JBool(b: bool)
    | JNum(n: real)
    | JStr(s: string)
    | JArr(items: seq<Json>)
    | JObj(fields: map<string, Json>)

  /** The JSON values JavaScript treats as false in `if` and `||`. */
  predicate Falsy(j: Json) {
    j == JNull || j == JBool(false) || j == JNum(0.0) || j == JStr("")
  }

  /** `j || fallback`. */
  function Or(j: Json, fallback: Json): (r: Json)
    ensures !Falsy(j) ==> r == j
    ensures Falsy(j) ==> r == fallback
  {
    if Falsy(j) then fallback else j
  }

  /** `o || fallback` for an optional JSON field (absent counts as falsy). */
  function OrDefault(o: Option<Json>, fallback: Json): (r: Json)
    ensures o.Some? && !Falsy(o.value) ==> r == o.value
    ensures o.None? || Falsy(o.value) ==> r == fallback
  {
    if o.Some? then Or(o.value, fallback) else fallback
  }

  /** The empty object `{}`. */
  const EmptyObject: Json := JObj(map[])

  /** `v && typeof v === 'object' && key in v`: only objects have own keys (arrays do not carry named keys here). */
  predicate HasKey(v: Json, key: string) {
    v.JObj? && key in v.fields
  }
}
