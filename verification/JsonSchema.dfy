/**
 * What the JSON Schema keywords of the supported subset mean: `type` and `enum`
 * (JSON Schema Validation 2020-12, sections 6.1.1 and 6.1.2), the numeric, length and
 * item bounds (6.2.2, 6.2.4, 6.3.1, 6.3.2, 6.4.1, 6.4.2), `required` (6.5.3), and
 * `properties`, `additionalProperties` and `items` (JSON Schema Core 2020-12, sections
 * 10.3.2.1, 10.3.2.3 and 10.3.1.2).
 *
 * This is the one reference both the output-schema codec and the command validator
 * are proved against. A keyword whose value has the wrong shape constrains nothing.
 */
module JsonSchema {
  import opened JsonValues

  predicate HasType(v: Json, name: string) {
    match v
    case Null => name == "null"
    case Bool(_) => name == "boolean"
    case Num(n) => name == "number" || (name == "integer" && IsInteger(n))
    case Str(_) => name == "string"
    case Arr(_) => name == "array"
    case Obj(_) => name == "object"
  }

  predicate TypeHolds(f: map<string, Json>, v: Json) {
    "type" in f ==>
      match f["type"]
      case Str(name) => HasType(v, name)
      case Arr(names) => exists i | 0 <= i < |names| :: names[i].Str? && HasType(v, names[i].s)
      case _ => true
  }

  predicate EnumHolds(f: map<string, Json>, v: Json) {
    "enum" in f && f["enum"].Arr? ==> v in f["enum"].items
  }

  /** `measure` is at least the number under `lower` and at most the one under `upper`. */
  predicate Within(f: map<string, Json>, lower: string, upper: string, measure: real) {
    && (lower in f && f[lower].Num? ==> f[lower].n <= measure)
    && (upper in f && f[upper].Num? ==> measure <= f[upper].n)
  }

  predicate BoundsHold(f: map<string, Json>, v: Json) {
    match v
    case Num(n) => Within(f, "minimum", "maximum", n)
    case Str(s) => Within(f, "minLength", "maxLength", |s| as real)
    case Arr(items) => Within(f, "minItems", "maxItems", |items| as real)
    case _ => true
  }

  predicate RequiredHolds(f: map<string, Json>, members: map<string, Json>) {
    "required" in f && f["required"].Arr? ==>
      forall i | 0 <= i < |f["required"].items| && f["required"].items[i].Str? ::
        f["required"].items[i].s in members
  }

  /** The subschemas `properties` declares. */
  function Declared(f: map<string, Json>): (d: map<string, Json>) {
    if "properties" in f && f["properties"].Obj? then f["properties"].fields else map[]
  }

  predicate ClosedHolds(f: map<string, Json>, members: map<string, Json>) {
    "additionalProperties" in f && f["additionalProperties"] == Bool(false) ==>
      members.Keys <= Declared(f).Keys
  }

  /** Everything a schema object says about a value except what it says about its parts. */
  predicate OwnKeywordsHold(f: map<string, Json>, v: Json) {
    && TypeHolds(f, v)
    && EnumHolds(f, v)
    && BoundsHold(f, v)
    && (v.Obj? ==> RequiredHolds(f, v.fields) && ClosedHolds(f, v.fields))
  }

  /** `v` is an instance the schema `s` accepts. */
  predicate Satisfies(s: Json, v: Json)
    decreases s
  {
    && s.Obj?
    && OwnKeywordsHold(s.fields, v)
    && ("items" in s.fields && v.Arr? ==>
          forall i | 0 <= i < |v.items| :: Satisfies(s.fields["items"], v.items[i]))
    && ("properties" in s.fields && s.fields["properties"].Obj? && v.Obj? ==>
          forall k | k in s.fields["properties"].fields && k in v.fields ::
            Satisfies(s.fields["properties"].fields[k], v.fields[k]))
  }
}
