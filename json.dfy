/** A parsed JSON value as System.Text.Json's JsonElement exposes it, and the
    one query the webhook core makes of it, TryGetProperty. */
module JsonValues {

  /** The value kinds of a JsonElement. `Undefined` is the kind of
      `default(JsonElement)`, an element that belongs to no document. */
  datatype Json =
    | Undefined
    | Null
    | Bool(b: bool)
    | Num(n: real)
    | Str(s: string)
    | Arr(elems: seq<Json>)
    | Obj(fields: map<string, Json>)

  /** What JsonElement.TryGetProperty does: it returns true with the value,
      returns false, or throws InvalidOperationException because the element
      is not an object (a `default` element included). */
  datatype PropertyLookup = Found(value: Json) | NotFound | InvalidOperation

  /** Property lookup by exact (ordinal) key name. */
  function TryGetProperty(j: Json, name: string): (r: PropertyLookup)
    ensures r.InvalidOperation? <==> !j.Obj?
    ensures j.Obj? ==> (r.Found? <==> name in j.fields)
    ensures r.Found? ==> j.Obj? && name in j.fields && r.value == j.fields[name]
  {
    match j
    case Obj(fields) => if name in fields then Found(fields[name]) else NotFound
    case _ => InvalidOperation
  }
}
