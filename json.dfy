/**
 * The values `JSON.parse` can produce. The parser itself is not modelled:
 * every operation that parses text takes it as a partial function
 * `parse: string -> Option<Json>`, where `None` stands for a thrown
 * `SyntaxError`.
 */
module Json {
  import opened Wrappers

  /** Objects are maps because `JSON.parse` keeps only the last of repeated keys. */
  datatype Json =
    | Null
    | Bool(b: bool)
    | Num(n: real)
    | Str(s: string)
    | Arr(elems: seq<Json>)
    | Obj(fields: map<string, Json>)

  /** JavaScript truthiness: `!v` is false. `NaN` cannot come out of `JSON.parse`. */
  predicate Truthy(v: Json) {
    match v
    case Null => false
    case Bool(b) => b
    case Num(n) => n != 0.0
    case Str(s) => s != ""
    case Arr(_) => true
    case Obj(_) => true
  }

  /** Truthiness of a property read, where `None` is `undefined`. */
  predicate Present(v: Option<Json>) {
    v.Some? && Truthy(v.value)
  }

  /**
   * The property `v.key` for a non-null value: only an object has the
   * properties this program reads (`faseAtual`, `fases`); on any other
   * non-null value the read is `undefined`. Reading a property of `null`
   * throws, hence the precondition.
   */
  function Property(v: Json, key: string): Option<Json>
    requires v != Null
  {
    if v.Obj? && key in v.fields then Some(v.fields[key]) else None
  }
}
