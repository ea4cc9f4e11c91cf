/** JSON documents. Member order is not part of a document's identity. */
module JsonValues {

  datatype Json =
    | Null
    | Bool(b: bool)
    | Num(n: real)
    | Str(s: string)
    | Arr(items: seq<Json>)
    | Obj(fields: map<string, Json>)

  predicate IsInteger(n: real) {
    n.Floor as real == n
  }

  predicate IsPrimitive(v: Json) {
    !v.Arr? && !v.Obj?
  }
}
