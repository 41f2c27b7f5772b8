/** JSON values as the code sees them, and what outside code makes of them. */
module JsonValues {
  import opened Outcomes

  datatype Json =
    | Null | Flag(flag: bool) | Number(number: int) | Fraction(fraction: real) | NotFinite
    | Text(text: string) | List(items: seq<Json>) | Object(fields: map<string, Json>)

  predicate Truthy(value: Json) {
    match value
    case Null => false
    case Flag(flag) => flag
    case Number(n) => n != 0
    case Fraction(x) => x != 0.0
    case NotFinite => true
    case Text(text) => text != ""
    case List(items) => items != []
    case Object(fields) => fields != map[]
  }

  /** value.get(key) for an object */
  function Get(fields: map<string, Json>, key: string): Json {
    if key in fields then fields[key] else Null
  }

  /** What outside code makes of values: the number that int() reads in a text, and whether the
      response model takes a text or a fraction for an integer, or for a flag. */
  datatype Readers = Readers(number: string -> Option<int>, amount: Json -> bool, flag: Json -> bool)

  /** int(x) for a float: towards zero. */
  function Truncated(x: real): int {
    if x >= 0.0 then x.Floor else -((-x).Floor)
  }

  predicate IsTextOrNull(value: Json) {
    value.Null? || value.Text?
  }
}
