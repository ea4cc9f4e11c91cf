/**
 * The command validator: a schema is proved well formed once, and values are then checked against
 * it with casts that are no longer looked at. `Check` demands an accepted schema, so each of its
 * casts is proved here to find the type it assumes, at every depth.
 */
module SchemaValidator {
  import opened Wrappers
  import opened JsonValues
  import opened JsonSchema

  type Fields = map<string, Json>

  const SUPPORTED_KEYWORDS: set<string> := {
    "type", "enum", "properties", "required", "additionalProperties", "items",
    "minLength", "maxLength", "minimum", "maximum", "minItems", "maxItems", "description", "title"
  }

  const TYPE_NAMES: set<string> := {"object", "array", "string", "number", "integer", "boolean", "null"}

  // ---- Schema definitions ----

  /** The names under `type`, one or several. */
  function TypeEntries(f: Fields): seq<Json>
    requires "type" in f
  {
    if f["type"].Arr? then f["type"].items else [f["type"]]
  }

  predicate IsTypeName(name: Json) {
    name.Str? && name.s in TYPE_NAMES
  }

  predicate TypesDefined(f: Fields) {
    "type" in f ==> TypeEntries(f) != [] && forall i | 0 <= i < |TypeEntries(f)| :: IsTypeName(TypeEntries(f)[i])
  }

  /** Collect the declared type names; the first unknown one, or an empty list, is a violation. */
  method DeclaredTypes(f: Fields) returns (r: Result<Option<seq<string>>, string>)
    ensures r.Success? <==> TypesDefined(f)
    ensures r.Success? ==> r.value.Some? == ("type" in f)
    ensures r.Success? && r.value.Some? ==>
      && |r.value.value| == |TypeEntries(f)|
      && forall i | 0 <= i < |TypeEntries(f)| :: TypeEntries(f)[i] == Str(r.value.value[i])
  {
    if "type" !in f {
      return Success(None);
    }
    var names := TypeEntries(f);
    var out: seq<string> := [];
    while |out| < |names|
      invariant |out| <= |names|
      invariant forall i | 0 <= i < |out| :: IsTypeName(names[i]) && names[i] == Str(out[i])
    {
      var name := names[|out|];
      if !(name.Str? && name.s in TYPE_NAMES) {
        return Failure("schema declares unknown type");
      }
      out := out + [name.s];
    }
    if out == [] {
      return Failure("schema type must name at least one type");
    }
    return Success(Some(out));
  }

  predicate DocumentationDefined(f: Fields) {
    && ("description" in f ==> f["description"].Str?)
    && ("title" in f ==> f["title"].Str?)
  }

  predicate EnumDefined(f: Fields) {
    "enum" in f ==> f["enum"].Arr? && f["enum"].items != []
  }

  predicate NumericKeyword(f: Fields, name: string) {
    name in f ==> f[name].Num?
  }

  predicate CountKeyword(f: Fields, name: string) {
    NumericKeyword(f, name) && (name in f ==> IsInteger(f[name].n) && f[name].n >= 0.0)
  }

  predicate OrderedBounds(f: Fields, lower: string, upper: string)
    requires NumericKeyword(f, lower) && NumericKeyword(f, upper)
  {
    lower in f && upper in f ==> f[lower].n <= f[upper].n
  }

  predicate BoundsDefined(f: Fields) {
    && CountKeyword(f, "minLength") && CountKeyword(f, "maxLength") && OrderedBounds(f, "minLength", "maxLength")
    && CountKeyword(f, "minItems") && CountKeyword(f, "maxItems") && OrderedBounds(f, "minItems", "maxItems")
    && NumericKeyword(f, "minimum") && NumericKeyword(f, "maximum") && OrderedBounds(f, "minimum", "maximum")
  }

  predicate RequiredDefined(f: Fields) {
    "required" in f ==>
      && f["required"].Arr?
      && forall i | 0 <= i < |f["required"].items| ::
           f["required"].items[i].Str? && f["required"].items[i].s in Declared(f)
  }

  /** Whether `validateSchemaDefinition` accepts the schema. */
  predicate Accepted(schema: Json)
    decreases schema
  {
    && schema.Obj?
    && var f := schema.fields;
       && f.Keys <= SUPPORTED_KEYWORDS
       && TypesDefined(f)
       && DocumentationDefined(f)
       && EnumDefined(f)
       && BoundsDefined(f)
       && ("additionalProperties" in f ==> f["additionalProperties"].Bool?)
       && ("properties" in f ==>
             && f["properties"].Obj?
             && forall name | name in f["properties"].fields :: Accepted(f["properties"].fields[name]))
       && RequiredDefined(f)
       && ("items" in f ==> Accepted(f["items"]))
  }

  // ---- Which definitions are accepted ----

  /** The bounds are numbers, or counts, and some measure lies within them. */
  ghost predicate BoundsMeetable(f: Fields, lower: string, upper: string, counts: bool) {
    && (forall name | name in {lower, upper} && name in f ::
          f[name].Num? && (counts ==> IsInteger(f[name].n) && f[name].n >= 0.0))
    && exists measure :: Within(f, lower, upper, measure)
  }

  predicate NamesTypes(entry: Json) {
    match entry
    case Str(_) => true
    case Arr(items) => forall i | 0 <= i < |items| :: items[i].Str?
    case _ => false
  }

  ghost predicate IsInhabited(name: string) {
    exists v :: HasType(v, name)
  }

  /** Some value is of the type; an array of names may name only such types, and must be met itself. */
  ghost predicate TypesMeetable(f: Fields) {
    "type" in f ==>
      && NamesTypes(f["type"])
      && (forall i | 0 <= i < |TypeEntries(f)| :: IsInhabited(TypeEntries(f)[i].s))
      && exists v :: TypeHolds(f, v)
  }

  /** The required names are met by some object that has declared members only. */
  ghost predicate RequiredMeetable(f: Fields) {
    "required" in f ==>
      && f["required"].Arr?
      && (forall i | 0 <= i < |f["required"].items| :: f["required"].items[i].Str?)
      && exists members :: RequiredHolds(f, members) && members.Keys <= Declared(f).Keys
  }

  /** Every keyword is one of the subset, has the shape it needs, and can be met by itself. */
  ghost predicate Meetable(schema: Json)
    decreases schema
  {
    && schema.Obj?
    && var f := schema.fields;
       && (forall key | key in f :: key in {
             "type", "enum", "properties", "required", "additionalProperties", "items", "minLength", "maxLength",
             "minimum", "maximum", "minItems", "maxItems", "description", "title"})
       && (forall key | key in {"description", "title"} && key in f :: f[key].Str?)
       && TypesMeetable(f)
       && ("enum" in f ==> f["enum"].Arr? && exists v :: EnumHolds(f, v))
       && BoundsMeetable(f, "minLength", "maxLength", true)
       && BoundsMeetable(f, "minItems", "maxItems", true)
       && BoundsMeetable(f, "minimum", "maximum", false)
       && ("additionalProperties" in f ==> f["additionalProperties"].Bool?)
       && ("properties" in f ==>
             && f["properties"].Obj?
             && forall name | name in f["properties"].fields :: Meetable(f["properties"].fields[name]))
       && RequiredMeetable(f)
       && ("items" in f ==> Meetable(f["items"]))
  }

  lemma BoundsAccepted(f: Fields, lower: string, upper: string, counts: bool)
    ensures BoundsMeetable(f, lower, upper, counts) <==>
      && NumericKeyword(f, lower) && NumericKeyword(f, upper) && OrderedBounds(f, lower, upper)
      && (counts ==> CountKeyword(f, lower) && CountKeyword(f, upper))
  {
    if NumericKeyword(f, lower) && NumericKeyword(f, upper) && OrderedBounds(f, lower, upper) {
      var measure := if lower in f then f[lower].n else if upper in f then f[upper].n else 0.0;
      assert Within(f, lower, upper, measure);
    }
  }

  lemma TypeOf(name: string)
    ensures name in TYPE_NAMES <==> IsInhabited(name)
  {
    assert IsInteger(0.0);
    assert HasType(Null, "null") && HasType(Bool(true), "boolean") && HasType(Num(0.0), "number") && HasType(Num(0.0), "integer");
    assert HasType(Str(""), "string") && HasType(Arr([]), "array") && HasType(Obj(map[]), "object");
  }

  lemma TypesAccepted(f: Fields)
    ensures TypesMeetable(f) <==> TypesDefined(f)
  {
    if "type" in f {
      var names := TypeEntries(f);
      forall i | 0 <= i < |names| && names[i].Str? ensures IsTypeName(names[i]) <==> IsInhabited(names[i].s) {
        TypeOf(names[i].s);
      }
      if TypesDefined(f) {
        assert IsTypeName(names[0]) && forall i | 0 <= i < |names| :: IsTypeName(names[i]);
        assert IsInhabited(names[0].s);
        var v :| HasType(v, names[0].s);
        if f["type"].Arr? {
          assert f["type"].items == names;
        }
        assert TypeHolds(f, v);
        assert NamesTypes(f["type"]);
      }
    }
  }

  lemma RequiredAccepted(f: Fields)
    ensures RequiredMeetable(f) <==> RequiredDefined(f)
  {
    if "required" in f && RequiredDefined(f) {
      assert RequiredHolds(f, Declared(f));
    }
  }

  lemma EnumAccepted(f: Fields)
    ensures ("enum" in f ==> f["enum"].Arr? && exists v :: EnumHolds(f, v)) <==> EnumDefined(f)
  {
    if "enum" in f && f["enum"].Arr? && f["enum"].items != [] {
      assert EnumHolds(f, f["enum"].items[0]);
    }
  }

  /**
   * A definition is accepted exactly when each of its keywords, at every depth, is known, has its
   * shape, and can be met: no empty list of types or values, no bounds out of order, no required
   * name that a closed object could not have.
   */
  lemma {:induction false} AcceptedMeans(schema: Json)
    ensures Accepted(schema) <==> Meetable(schema)
    decreases schema
  {
    if schema.Obj? {
      var f := schema.fields;
      TypesAccepted(f);
      EnumAccepted(f);
      RequiredAccepted(f);
      BoundsAccepted(f, "minLength", "maxLength", true);
      BoundsAccepted(f, "minItems", "maxItems", true);
      BoundsAccepted(f, "minimum", "maximum", false);
      if "items" in f {
        AcceptedMeans(f["items"]);
      }
      if "properties" in f && f["properties"].Obj? {
        forall name | name in f["properties"].fields
          ensures Accepted(f["properties"].fields[name]) <==> Meetable(f["properties"].fields[name])
        {
          AcceptedMeans(f["properties"].fields[name]);
        }
      }
      hide TypesMeetable, TypesDefined, EnumDefined, RequiredMeetable, RequiredDefined, BoundsMeetable, OrderedBounds, CountKeyword;
    }
  }

  // ---- Values ----

  predicate MatchesType(v: Json, name: string) {
    match name
    case "null" => v.Null?
    case "boolean" => v.Bool?
    case "string" => v.Str?
    case "number" => v.Num?
    case "integer" => v.Num? && IsInteger(v.n)
    case "array" => v.Arr?
    case "object" => v.Obj?
    case _ => false
  }

  predicate TypePasses(v: Json, f: Fields)
    requires TypesDefined(f)
  {
    "type" in f ==> exists i | 0 <= i < |TypeEntries(f)| :: MatchesType(v, TypeEntries(f)[i].s)
  }

  /** Strict equality of an entry of the schema and a value of its own: no two containers are the same. */
  predicate Identical(entry: Json, v: Json) {
    entry == v && IsPrimitive(v)
  }

  predicate EnumPasses(v: Json, f: Fields)
    requires EnumDefined(f)
  {
    "enum" in f ==> exists i | 0 <= i < |f["enum"].items| :: Identical(f["enum"].items[i], v)
  }

  predicate BoundPasses(f: Fields, lower: string, upper: string, measure: real)
    requires NumericKeyword(f, lower) && NumericKeyword(f, upper)
  {
    && !(lower in f && measure < f[lower].n)
    && !(upper in f && measure > f[upper].n)
  }

  /** Whether `check` lets the value through; a value is a document of its own, apart from the schema. */
  predicate Check(v: Json, schema: Json)
    requires Accepted(schema)
    decreases schema
  {
    var f := schema.fields;
    && TypePasses(v, f)
    && EnumPasses(v, f)
    && (v.Str? ==> BoundPasses(f, "minLength", "maxLength", |v.s| as real))
    && (v.Num? ==> BoundPasses(f, "minimum", "maximum", v.n))
    && (v.Arr? ==>
          && BoundPasses(f, "minItems", "maxItems", |v.items| as real)
          && ("items" in f ==> forall i | 0 <= i < |v.items| :: Check(v.items[i], f["items"])))
    && (v.Obj? ==>
          && ("required" in f ==> forall i | 0 <= i < |f["required"].items| :: f["required"].items[i].s in v.fields)
          && forall name | name in v.fields ::
               if "properties" in f && name in f["properties"].fields then Check(v.fields[name], f["properties"].fields[name])
               else !("additionalProperties" in f && !f["additionalProperties"].b))
  }

  // ---- What the check means ----

  /** Wherever an `enum` looks at a part of the value, that part is no container. */
  ghost predicate EnumsSeePrimitives(schema: Json, v: Json)
    requires Accepted(schema)
    decreases schema
  {
    var f := schema.fields;
    && ("enum" in f ==> IsPrimitive(v))
    && ("items" in f && v.Arr? ==> forall i | 0 <= i < |v.items| :: EnumsSeePrimitives(f["items"], v.items[i]))
    && ("properties" in f && v.Obj? ==>
          forall k | k in f["properties"].fields && k in v.fields :: EnumsSeePrimitives(f["properties"].fields[k], v.fields[k]))
  }

  lemma NamesAgree(v: Json, name: Json)
    requires IsTypeName(name)
    ensures MatchesType(v, name.s) <==> HasType(v, name.s)
  {
  }

  lemma TypesAgree(v: Json, f: Fields)
    requires TypesDefined(f)
    ensures TypePasses(v, f) <==> TypeHolds(f, v)
  {
    if "type" in f {
      var names := TypeEntries(f);
      forall i | 0 <= i < |names| ensures IsTypeName(names[i]) && (MatchesType(v, names[i].s) <==> HasType(v, names[i].s)) {
        NamesAgree(v, names[i]);
      }
      assert f["type"].Str? || f["type"].Arr? by {
        assert IsTypeName(names[0]);
      }
      hide MatchesType, HasType;
      if f["type"].Str? {
        assert |names| == 1 && names[0] == f["type"];
        assert TypePasses(v, f) <==> MatchesType(v, names[0].s);
      } else {
        assert f["type"] == Arr(names);
      }
    }
  }

  lemma EnumsAgree(v: Json, f: Fields)
    requires EnumDefined(f)
    ensures EnumPasses(v, f) <==> EnumHolds(f, v) && ("enum" in f ==> IsPrimitive(v))
  {
    if "enum" in f && EnumHolds(f, v) && IsPrimitive(v) {
      var i :| 0 <= i < |f["enum"].items| && f["enum"].items[i] == v;
      assert Identical(f["enum"].items[i], v);
    }
  }

  lemma BoundsAgree(v: Json, f: Fields)
    requires BoundsDefined(f)
    ensures BoundsHold(f, v) <==>
      && (v.Str? ==> BoundPasses(f, "minLength", "maxLength", |v.s| as real))
      && (v.Num? ==> BoundPasses(f, "minimum", "maximum", v.n))
      && (v.Arr? ==> BoundPasses(f, "minItems", "maxItems", |v.items| as real))
  {
  }

  predicate MembersPass(v: Json, f: Fields)
    requires v.Obj? && Accepted(Obj(f))
  {
    && ("required" in f ==> forall i | 0 <= i < |f["required"].items| :: f["required"].items[i].s in v.fields)
    && forall name | name in v.fields && !("properties" in f && name in f["properties"].fields) ::
         !("additionalProperties" in f && !f["additionalProperties"].b)
  }

  lemma MembersAgree(v: Json, f: Fields)
    requires v.Obj? && Accepted(Obj(f))
    ensures MembersPass(v, f) <==> RequiredHolds(f, v.fields) && ClosedHolds(f, v.fields)
  {
    if "additionalProperties" in f && f["additionalProperties"] == Bool(false) {
      assert v.fields.Keys <= Declared(f).Keys <==> forall name | name in v.fields :: name in Declared(f);
    }
  }

  /**
   * A value is let through exactly when it is an instance of the schema and no `enum` looks at a
   * container: an array or object that an `enum` lists is refused all the same.
   */
  lemma {:induction false} CheckMeans(v: Json, schema: Json)
    requires Accepted(schema)
    ensures Check(v, schema) <==> Satisfies(schema, v) && EnumsSeePrimitives(schema, v)
    decreases schema
  {
    var f := schema.fields;
    TypesAgree(v, f);
    EnumsAgree(v, f);
    BoundsAgree(v, f);
    if v.Obj? {
      MembersAgree(v, f);
    }
    if v.Arr? && "items" in f {
      forall i | 0 <= i < |v.items|
        ensures Check(v.items[i], f["items"]) <==> Satisfies(f["items"], v.items[i]) && EnumsSeePrimitives(f["items"], v.items[i])
      {
        CheckMeans(v.items[i], f["items"]);
      }
    }
    if v.Obj? && "properties" in f {
      var p := f["properties"].fields;
      forall k | k in p && k in v.fields
        ensures Check(v.fields[k], p[k]) <==> Satisfies(p[k], v.fields[k]) && EnumsSeePrimitives(p[k], v.fields[k])
      {
        CheckMeans(v.fields[k], p[k]);
      }
    }
  }

  /** Every `enum` of the schema lists strings, numbers, booleans and null only. */
  ghost predicate PrimitiveEnums(schema: Json)
    requires Accepted(schema)
    decreases schema
  {
    var f := schema.fields;
    && ("enum" in f ==> forall i | 0 <= i < |f["enum"].items| :: IsPrimitive(f["enum"].items[i]))
    && ("items" in f ==> PrimitiveEnums(f["items"]))
    && ("properties" in f ==> forall k | k in f["properties"].fields :: PrimitiveEnums(f["properties"].fields[k]))
  }

  lemma {:induction false} InstancesOfPrimitiveEnums(schema: Json, v: Json)
    requires Accepted(schema) && PrimitiveEnums(schema) && Satisfies(schema, v)
    ensures EnumsSeePrimitives(schema, v)
    decreases schema
  {
    var f := schema.fields;
    if "items" in f && v.Arr? {
      forall i | 0 <= i < |v.items| ensures EnumsSeePrimitives(f["items"], v.items[i]) {
        InstancesOfPrimitiveEnums(f["items"], v.items[i]);
      }
    }
    if "properties" in f && v.Obj? {
      forall k | k in f["properties"].fields && k in v.fields
        ensures EnumsSeePrimitives(f["properties"].fields[k], v.fields[k])
      {
        InstancesOfPrimitiveEnums(f["properties"].fields[k], v.fields[k]);
      }
    }
  }

  /** Under a schema without container enums the check accepts exactly the instances. */
  lemma CheckIsExact(v: Json, schema: Json)
    requires Accepted(schema) && PrimitiveEnums(schema)
    ensures Check(v, schema) <==> Satisfies(schema, v)
  {
    CheckMeans(v, schema);
    if Satisfies(schema, v) {
      InstancesOfPrimitiveEnums(schema, v);
    }
  }

  /** An accepted schema with an instance that the check refuses. */
  lemma ContainerEnumRefuses() returns (schema: Json, v: Json)
    ensures Accepted(schema) && Satisfies(schema, v) && !Check(v, schema)
  {
    v := Arr([]);
    schema := Obj(map["enum" := Arr([v])]);
    assert v in schema.fields["enum"].items;
  }
}
