/**
 * The codec's theorem: over every schema it accepts, restoring is a bijection from the
 * answers the wire schema accepts onto the values the source schema accepts.
 */
module OutputSchemaBijection {
  import opened Wrappers
  import opened JsonValues
  import opened JsonSchema
  import opened NameOrder
  import opened OutputSchemaCodec

  /** What the `type` and `enum` of a schema object say together. */
  predicate HeadHolds(f: map<string, Json>, v: Json) {
    TypeHolds(f, v) && EnumHolds(f, v)
  }

  ghost predicate SameAt(f: map<string, Json>, g: map<string, Json>, k: string) {
    (k in f <==> k in g) && (k in f ==> f[k] == g[k])
  }

  lemma KindNames(k: Kind, v: Json)
    ensures KindName(k) == "null" <==> k == KNull
    ensures v.Null? ==> (HasType(v, KindName(k)) <==> k == KNull)
  {
  }

  /** Making a schema optional adds null to what its head accepts, and nothing else. */
  lemma HeadMeaning(f: map<string, Json>, optional: bool, h: Head, g: map<string, Json>, v: Json)
    requires ReadHead(f, optional) == Success(h)
    requires SameAt(g, h.wire, "type") && SameAt(g, h.wire, "enum")
    ensures HeadHolds(g, v) <==> HeadHolds(f, v) || (optional && v.Null?)
    ensures h.acceptsNull <==> HeadHolds(f, Null)
    ensures optional ==> !h.acceptsNull
  {
    var t := h.typed;
    var entries := ReadEnum(f).value;
    KindNames(t.kind, v);
    KindNames(t.kind, Null);
    TypeMeaning(f, t, v);
    TypeMeaning(f, t, Null);
    WireTypeMeaning(g, t, optional, v);
    if entries != [] {
      assert f["enum"] == Arr(entries);
      assert g["enum"].items == if optional && Null !in entries then entries + [Null] else entries;
      assert EntryFits(entries[0], t);
      if v in entries {
        var i :| 0 <= i < |entries| && entries[i] == v;
        assert EntryFits(entries[i], t);
      }
    }
  }

  lemma TypeMeaning(f: map<string, Json>, t: Typed, v: Json)
    requires ReadType(f) == Success(t)
    ensures TypeHolds(f, v) <==> HasType(v, KindName(t.kind)) || (t.nullable && v.Null?)
  {
    KindNames(t.kind, v);
    if f["type"].Arr? {
      var names := f["type"].items;
      assert forall i | 0 <= i < |names| :: names[i] == names[0] || names[i] == names[1];
      assert names[0].Str? && names[1].Str?;
      assert TypeHolds(f, v) <==> HasType(v, names[0].s) || HasType(v, names[1].s) by {
        if HasType(v, names[0].s) { assert names[0].Str? && HasType(v, names[0].s); }
        if HasType(v, names[1].s) { assert names[1].Str? && HasType(v, names[1].s); }
      }
    }
  }

  lemma WireTypeMeaning(g: map<string, Json>, t: Typed, optional: bool, v: Json)
    requires "type" in g
    requires g["type"] == if t.kind != KNull && (optional || t.nullable)
                          then Arr([Str(KindName(t.kind)), Str("null")]) else Str(KindName(t.kind))
    ensures TypeHolds(g, v) <==>
            HasType(v, KindName(t.kind)) || (t.kind != KNull && (optional || t.nullable) && v.Null?)
  {
    KindNames(t.kind, v);
    if g["type"].Arr? {
      var names := g["type"].items;
      assert names[0] == Str(KindName(t.kind)) && names[1] == Str("null");
      assert TypeHolds(g, v) <==> HasType(v, names[0].s) || HasType(v, names[1].s) by {
        if HasType(v, names[0].s) { assert names[0].Str? && HasType(v, names[0].s); }
        if HasType(v, names[1].s) { assert names[1].Str? && HasType(v, names[1].s); }
      }
    }
  }

  // ---- Schemas without parts ----

  ghost const PLAIN_KEYWORDS: set<string> := {"type", "description", "enum", "minimum", "maximum"}

  lemma PlainSatisfies(f: map<string, Json>, v: Json)
    requires f.Keys <= PLAIN_KEYWORDS
    ensures Satisfies(Obj(f), v) <==> HeadHolds(f, v) && (v.Num? ==> Within(f, "minimum", "maximum", v.n))
  {
    assert forall k | k in f :: k in PLAIN_KEYWORDS;
    assert "items" !in f && "properties" !in f && "required" !in f && "additionalProperties" !in f;
    assert "minLength" !in f && "maxLength" !in f && "minItems" !in f && "maxItems" !in f;
  }

  lemma HeadShape(f: map<string, Json>, optional: bool, h: Head)
    requires ReadHead(f, optional) == Success(h)
    ensures h.wire.Keys <= {"type", "description", "enum"}
    ensures f.Keys <= Allowed(h.typed.kind)
  {
  }

  lemma PlainShape(schema: Json, optional: bool, c: Compiled)
    requires Compile(schema, optional) == Success(c) && c.plan.ValuePlan?
    ensures schema.Obj? && ReadHead(schema.fields, optional).Success? && c.wire.Obj?
    ensures schema.fields.Keys <= PLAIN_KEYWORDS && c.wire.fields.Keys <= PLAIN_KEYWORDS
    ensures SameAt(c.wire.fields, ReadHead(schema.fields, optional).value.wire, "type")
    ensures SameAt(c.wire.fields, ReadHead(schema.fields, optional).value.wire, "enum")
    ensures SameAt(c.wire.fields, schema.fields, "minimum") && SameAt(c.wire.fields, schema.fields, "maximum")
  {
    var h := ReadHead(schema.fields, optional).value;
    HeadShape(schema.fields, optional, h);
  }

  lemma PlainMeaning(schema: Json, optional: bool, c: Compiled, v: Json)
    requires Compile(schema, optional) == Success(c) && c.plan.ValuePlan?
    ensures Satisfies(c.wire, v) <==> Satisfies(schema, v) || (optional && v.Null?)
  {
    PlainShape(schema, optional, c);
    HeadMeaning(schema.fields, optional, ReadHead(schema.fields, optional).value, c.wire.fields, v);
    PlainSatisfies(schema.fields, v);
    PlainSatisfies(c.wire.fields, v);
    assert schema == Obj(schema.fields) && c.wire == Obj(c.wire.fields);
  }

  // ---- Arrays ----

  /** A container's head admits its own container kind and, where declared or optional, null. */
  lemma ContainerHead(f: map<string, Json>, optional: bool, h: Head, g: map<string, Json>, v: Json)
    requires ReadHead(f, optional) == Success(h) && h.typed.kind in {KObject, KArray}
    requires SameAt(g, h.wire, "type") && SameAt(g, h.wire, "enum")
    ensures HeadHolds(f, v) <==> (if h.typed.kind == KObject then v.Obj? else v.Arr?) || (v.Null? && h.acceptsNull)
    ensures HeadHolds(g, v) <==> HeadHolds(f, v) || (optional && v.Null?)
    ensures optional ==> !h.acceptsNull
  {
    HeadMeaning(f, optional, h, g, v);
    TypeMeaning(f, h.typed, v);
    TypeMeaning(f, h.typed, Null);
  }

  lemma ArraySatisfies(f: map<string, Json>, v: Json)
    requires f.Keys <= {"type", "description", "enum", "items"} && "items" in f
    ensures Satisfies(Obj(f), v) <==>
            HeadHolds(f, v) && (v.Arr? ==> forall i | 0 <= i < |v.items| :: Satisfies(f["items"], v.items[i]))
  {
    assert "properties" !in f && "required" !in f && "additionalProperties" !in f;
    assert "minimum" !in f && "maximum" !in f;
    assert "minLength" !in f && "maxLength" !in f && "minItems" !in f && "maxItems" !in f;
  }

  lemma ArrayShape(schema: Json, optional: bool, c: Compiled)
    requires Compile(schema, optional) == Success(c) && c.plan.ArrayPlan?
    ensures schema.Obj? && c.wire.Obj? && ReadHead(schema.fields, optional).Success?
    ensures ReadHead(schema.fields, optional).value.typed.kind == KArray
    ensures c.plan.acceptsNull == c.acceptsNull == ReadHead(schema.fields, optional).value.acceptsNull
    ensures SameAt(c.wire.fields, ReadHead(schema.fields, optional).value.wire, "type")
    ensures SameAt(c.wire.fields, ReadHead(schema.fields, optional).value.wire, "enum")
    ensures schema.fields.Keys <= {"type", "description", "enum", "items"}
    ensures c.wire.fields.Keys <= {"type", "description", "enum", "items"}
    ensures "items" in schema.fields && "items" in c.wire.fields
    ensures Compile(schema.fields["items"], false).Success?
    ensures c.wire.fields["items"] == Compile(schema.fields["items"], false).value.wire
    ensures c.plan.items == Compile(schema.fields["items"], false).value.plan
  {
    HeadShape(schema.fields, optional, ReadHead(schema.fields, optional).value);
  }

  // ---- Objects ----

  lemma {:induction false} RequiredNamesMeaning(entries: seq<Json>, properties: map<string, Json>, n: nat, r: set<string>)
    requires n <= |entries| && RequiredNames(entries, properties, n) == Success(r)
    ensures r <= properties.Keys
    ensures forall i | 0 <= i < n :: entries[i].Str?
    ensures forall k :: k in r <==> exists i | 0 <= i < n :: entries[i] == Str(k)
  {
    if n > 0 {
      var before := RequiredNames(entries, properties, n - 1).value;
      RequiredNamesMeaning(entries, properties, n - 1, before);
      forall k ensures k in r <==> exists i | 0 <= i < n :: entries[i] == Str(k) {
        if k in r && k !in before {
          assert entries[n - 1] == Str(k);
        }
      }
    }
  }

  lemma RequiredMeaning(f: map<string, Json>, properties: map<string, Json>, r: set<string>, members: map<string, Json>)
    requires ReadRequired(f, properties) == Success(r)
    ensures r <= properties.Keys
    ensures RequiredHolds(f, members) <==> r <= members.Keys
  {
    if "required" in f {
      var entries := f["required"].items;
      RequiredNamesMeaning(entries, properties, |entries|, r);
      if RequiredHolds(f, members) {
        forall k | k in r ensures k in members {
          var i :| 0 <= i < |entries| && entries[i] == Str(k);
          assert f["required"].items[i].Str?;
        }
      }
      if r <= members.Keys {
        forall i | 0 <= i < |entries| && entries[i].Str? ensures entries[i].s in members {
          assert entries[i] == Str(entries[i].s);
          assert entries[i].s in r;
        }
      }
    }
  }

  /** `p` holds, under `k`, what the property `k` compiles to. */
  ghost predicate CompiledAt(properties: map<string, Json>, required: set<string>, p: Properties, k: string)
    requires k in properties && k in p.wires && k in p.plans
  {
    var r := Compile(properties[k], k !in required);
    && r.Success?
    && p.wires[k] == r.value.wire && p.plans[k].plan == r.value.plan
    && p.plans[k].omitNull == (k !in required && !r.value.acceptsNull)
  }

  /** `p` holds what each of `names` compiles to, and nothing else. */
  ghost predicate CompiledProperties(properties: map<string, Json>, names: set<string>, required: set<string>, p: Properties) {
    && names <= properties.Keys
    && p.wires.Keys == names && p.plans.Keys == names
    && forall k | k in names :: CompiledAt(properties, required, p, k)
  }

  lemma {:induction false} CompilePropertiesEntries(properties: Json, names: seq<string>, all: set<string>, required: set<string>, p: Properties)
    requires properties.Obj? && (forall k | k in names :: k in properties.fields) && all == set k | k in names
    requires CompileProperties(properties, names, required) == Success(p)
    ensures CompiledProperties(properties.fields, all, required, p)
    decreases |names|
  {
    if names != [] {
      var front, last := names[..|names| - 1], names[|names| - 1];
      assert names == front + [last];
      var before := CompileProperties(properties, front, required).value;
      var others := set k | k in front;
      CompilePropertiesEntries(properties, front, others, required, before);
      assert all == others + {last};
      forall k | k in all ensures CompiledAt(properties.fields, required, p, k) {
        if k != last {
          assert CompiledAt(properties.fields, required, before, k);
        }
      }
    }
  }

  ghost const OBJECT_KEYWORDS: set<string> :=
    {"type", "description", "enum", "properties", "required", "additionalProperties"}

  lemma ObjectSatisfies(f: map<string, Json>, v: Json)
    requires f.Keys <= OBJECT_KEYWORDS
    requires "properties" in f && f["properties"].Obj? && "additionalProperties" in f && f["additionalProperties"] == Bool(false)
    ensures Satisfies(Obj(f), v) <==>
            && HeadHolds(f, v)
            && (v.Obj? ==>
                  && RequiredHolds(f, v.fields)
                  && v.fields.Keys <= f["properties"].fields.Keys
                  && forall k | k in v.fields.Keys * f["properties"].fields.Keys ::
                       Satisfies(f["properties"].fields[k], v.fields[k]))
  {
    assert forall k | k in f :: k in OBJECT_KEYWORDS;
    assert "items" !in f && "minimum" !in f && "maximum" !in f;
    assert "minLength" !in f && "maxLength" !in f && "minItems" !in f && "maxItems" !in f;
  }

  lemma ObjectParts(schema: Json, optional: bool, c: Compiled) returns (h: Head, required: set<string>, p: Properties)
    requires Compile(schema, optional) == Success(c) && c.plan.ObjectPlan?
    ensures schema.Obj? && ReadHead(schema.fields, optional) == Success(h) && h.typed.kind == KObject
    ensures "additionalProperties" in schema.fields && schema.fields["additionalProperties"] == Bool(false)
    ensures "properties" in schema.fields && schema.fields["properties"].Obj?
    ensures ReadRequired(schema.fields, schema.fields["properties"].fields) == Success(required)
    ensures CompileProperties(schema.fields["properties"], Sorted(schema.fields["properties"].fields.Keys), required) == Success(p)
    ensures c == Compiled(Obj(ObjectWire(h.wire, p.wires, Sorted(schema.fields["properties"].fields.Keys))),
                          ObjectPlan(h.acceptsNull, p.plans), h.acceptsNull)
  {
    h := ReadHead(schema.fields, optional).value;
    required := ReadRequired(schema.fields, schema.fields["properties"].fields).value;
    p := CompileProperties(schema.fields["properties"], Sorted(schema.fields["properties"].fields.Keys), required).value;
  }

  lemma ObjectWireShape(base: map<string, Json>, wires: map<string, Json>, names: seq<string>)
    requires base.Keys <= {"type", "description", "enum"}
    ensures var g := ObjectWire(base, wires, names);
            && g.Keys <= OBJECT_KEYWORDS
            && SameAt(g, base, "type") && SameAt(g, base, "enum")
            && "additionalProperties" in g && g["additionalProperties"] == Bool(false)
            && "properties" in g && g["properties"] == Obj(wires)
            && "required" in g && g["required"] == Arr(NameList(names))
  {
  }

  /** An object schema and its wire schema differ only in what they require and in their properties' schemas. */
  ghost predicate ObjectShaped(f: map<string, Json>, g: map<string, Json>, plans: map<string, PropertyPlan>, h: Head, required: set<string>) {
    && SameAt(g, h.wire, "type") && SameAt(g, h.wire, "enum")
    && f.Keys <= OBJECT_KEYWORDS && g.Keys <= OBJECT_KEYWORDS
    && "additionalProperties" in f && f["additionalProperties"] == Bool(false)
    && "additionalProperties" in g && g["additionalProperties"] == Bool(false)
    && "properties" in f && f["properties"].Obj? && "properties" in g && g["properties"].Obj?
    && ReadRequired(f, f["properties"].fields) == Success(required)
    && CompiledProperties(f["properties"].fields, f["properties"].fields.Keys, required, Properties(g["properties"].fields, plans))
    && "required" in g && g["required"] == Arr(NameList(Sorted(f["properties"].fields.Keys)))
  }

  lemma ObjectShape(schema: Json, optional: bool, c: Compiled) returns (h: Head, required: set<string>)
    requires Compile(schema, optional) == Success(c) && c.plan.ObjectPlan?
    ensures schema.Obj? && c.wire.Obj?
    ensures ReadHead(schema.fields, optional) == Success(h) && h.typed.kind == KObject
    ensures c.plan.acceptsNull == c.acceptsNull == h.acceptsNull
    ensures ObjectShaped(schema.fields, c.wire.fields, c.plan.properties, h, required)
  {
    var p;
    h, required, p := ObjectParts(schema, optional, c);
    HeadShape(schema.fields, optional, h);
    ObjectShapeOf(schema.fields, h, required, p);
  }

  lemma ObjectShapeOf(f: map<string, Json>, h: Head, required: set<string>, p: Properties)
    requires h.wire.Keys <= {"type", "description", "enum"} && f.Keys <= OBJECT_KEYWORDS
    requires "additionalProperties" in f && f["additionalProperties"] == Bool(false)
    requires "properties" in f && f["properties"].Obj?
    requires ReadRequired(f, f["properties"].fields) == Success(required)
    requires CompileProperties(f["properties"], Sorted(f["properties"].fields.Keys), required) == Success(p)
    ensures ObjectShaped(f, ObjectWire(h.wire, p.wires, Sorted(f["properties"].fields.Keys)), p.plans, h, required)
  {
    var names := Sorted(f["properties"].fields.Keys);
    ObjectWireShape(h.wire, p.wires, names);
    CompilePropertiesEntries(f["properties"], names, f["properties"].fields.Keys, required, p);
    assert p == Properties(p.wires, p.plans);
  }

  /** The wire schema of an object requires every property there is. */
  lemma WireRequired(g: map<string, Json>, names: set<string>, members: map<string, Json>)
    requires "required" in g && g["required"] == Arr(NameList(Sorted(names)))
    ensures RequiredHolds(g, members) <==> names <= members.Keys
  {
    var order := Sorted(names);
    var entries := g["required"].items;
    if RequiredHolds(g, members) {
      forall k | k in names ensures k in members {
        assert k in order;
        var i :| 0 <= i < |order| && order[i] == k;
        assert entries[i] == Str(k);
      }
    }
  }

  // ---- Both directions ----

  /** The answer `w` restores to a value the source accepts, and filling that value gives `w` again. */
  ghost predicate RestoresBack(schema: Json, plan: Plan, w: Json) {
    && Restore(w, plan).Some?
    && Satisfies(schema, Restore(w, plan).value)
    && Fill(Restore(w, plan).value, plan) == w
  }

  /** The source value `v` fills to an accepted answer, not the null of absence, which restores to `v`. */
  ghost predicate FillsForth(c: Compiled, optional: bool, v: Json) {
    && Satisfies(c.wire, Fill(v, c.plan))
    && (optional ==> !Fill(v, c.plan).Null?)
    && Restore(Fill(v, c.plan), c.plan) == Some(v)
  }

  lemma {:induction false} Sound(schema: Json, optional: bool, c: Compiled, w: Json)
    requires Compile(schema, optional) == Success(c)
    requires Satisfies(c.wire, w) && !(optional && w.Null?)
    ensures RestoresBack(schema, c.plan, w)
    decreases schema, 2
  {
    match c.plan
    case ValuePlan => PlainMeaning(schema, optional, c, w);
    case ArrayPlan(_, _) => SoundArray(schema, optional, c, w);
    case ObjectPlan(_, _) => SoundObject(schema, optional, c, w);
  }

  lemma {:induction false} SoundArray(schema: Json, optional: bool, c: Compiled, w: Json)
    requires Compile(schema, optional) == Success(c) && c.plan.ArrayPlan?
    requires Satisfies(c.wire, w) && !(optional && w.Null?)
    ensures RestoresBack(schema, c.plan, w)
    decreases schema, 1
  {
    ArrayShape(schema, optional, c);
    var f, g := schema.fields, c.wire.fields;
    ContainerHead(f, optional, ReadHead(f, optional).value, g, w);
    assert schema == Obj(f) && c.wire == Obj(g);
    ArraySatisfies(g, w);
    if w.Arr? {
      var items := Compile(f["items"], false).value;
      forall i | 0 <= i < |w.items| ensures RestoresBack(f["items"], c.plan.items, w.items[i]) {
        Sound(f["items"], false, items, w.items[i]);
      }
      var v := Restore(w, c.plan).value;
      ContainerHead(f, optional, ReadHead(f, optional).value, g, v);
      ArraySatisfies(f, v);
      assert Fill(v, c.plan).items == w.items;
    } else {
      ArraySatisfies(f, w);
    }
  }

  /** Restoring an object drops the nulls that mean absence and restores every other member. */
  lemma RestoreMembers(p: map<string, Json>, plan: Plan, members: map<string, Json>)
    requires plan.ObjectPlan? && members.Keys == p.Keys == plan.properties.Keys
    requires forall k | k in p && !Omitted(plan.properties, members, k) :: RestoresBack(p[k], plan.properties[k].plan, members[k])
    ensures Restore(Obj(members), plan).Some? && Restore(Obj(members), plan).value.Obj?
    ensures var v := Restore(Obj(members), plan).value.fields;
            && (forall k :: k in v <==> k in members && !Omitted(plan.properties, members, k))
            && (forall k | k in v :: Satisfies(p[k], v[k]))
            && Fill(Obj(v), plan) == Obj(members)
  {
    var v := Restore(Obj(members), plan).value.fields;
    var filled := Fill(Obj(v), plan).fields;
    forall k | k in members ensures k in filled && filled[k] == members[k] {
      if !Omitted(plan.properties, members, k) {
        assert v[k] == Restore(members[k], plan.properties[k].plan).value;
      }
    }
    assert filled.Keys == members.Keys;
  }

  lemma {:induction false} SoundObject(schema: Json, optional: bool, c: Compiled, w: Json)
    requires Compile(schema, optional) == Success(c) && c.plan.ObjectPlan?
    requires Satisfies(c.wire, w) && !(optional && w.Null?)
    ensures RestoresBack(schema, c.plan, w)
    decreases schema, 1
  {
    var h, required := ObjectShape(schema, optional, c);
    var f, g := schema.fields, c.wire.fields;
    ContainerHead(f, optional, h, g, w);
    assert schema == Obj(f) && c.wire == Obj(g);
    ObjectSatisfies(g, w);
    ObjectSatisfies(f, w);
    if w.Obj? {
      WireRequired(g, f["properties"].fields.Keys, w.fields);
      SoundMembers(f, g, c.plan, h, required, w.fields);
      var v := Restore(w, c.plan).value;
      ContainerHead(f, optional, h, g, v);
      RequiredMeaning(f, f["properties"].fields, required, v.fields);
      ObjectSatisfies(f, v);
    }
  }

  lemma {:induction false} SoundMembers(f: map<string, Json>, g: map<string, Json>, plan: Plan, h: Head,
                                        required: set<string>, members: map<string, Json>)
    requires plan.ObjectPlan? && ObjectShaped(f, g, plan.properties, h, required)
    requires members.Keys == f["properties"].fields.Keys
    requires forall k | k in members.Keys * g["properties"].fields.Keys :: Satisfies(g["properties"].fields[k], members[k])
    ensures Restore(Obj(members), plan).Some? && Restore(Obj(members), plan).value.Obj?
    ensures var v := Restore(Obj(members), plan).value.fields;
            && required <= v.Keys <= f["properties"].fields.Keys
            && (forall k | k in v :: Satisfies(f["properties"].fields[k], v[k]))
            && Fill(Obj(v), plan) == Obj(members)
    decreases Obj(f), 0
  {
    var p := f["properties"].fields;
    RequiredMeaning(f, p, required, members);
    forall k | k in p && !Omitted(plan.properties, members, k) ensures RestoresBack(p[k], plan.properties[k].plan, members[k]) {
      assert CompiledAt(p, required, Properties(g["properties"].fields, plan.properties), k);
      SoundMember(p[k], k !in required, plan.properties[k], g["properties"].fields[k], members[k]);
    }
    RestoreMembers(p, plan, members);
  }

  lemma {:induction false} SoundMember(schema: Json, optional: bool, property: PropertyPlan, wire: Json, w: Json)
    requires Compile(schema, optional).Success?
    requires wire == Compile(schema, optional).value.wire && property.plan == Compile(schema, optional).value.plan
    requires property.omitNull == (optional && !Compile(schema, optional).value.acceptsNull)
    requires Satisfies(wire, w) && !(property.omitNull && w.Null?)
    ensures RestoresBack(schema, property.plan, w)
    decreases schema, 3
  {
    var c := Compile(schema, optional).value;
    PropertyNull(schema, optional, c);
    Sound(schema, optional, c, w);
  }

  /** An optional property never accepts null, so its null on the wire can only mean absence. */
  lemma PropertyNull(schema: Json, optional: bool, c: Compiled)
    requires Compile(schema, optional) == Success(c)
    ensures optional ==> !c.acceptsNull
  {
    HeadMeaning(schema.fields, optional, ReadHead(schema.fields, optional).value,
                ReadHead(schema.fields, optional).value.wire, Null);
  }

  lemma OptionalNeverNull(schema: Json, optional: bool, c: Compiled, v: Json)
    requires Compile(schema, optional) == Success(c) && Satisfies(schema, v)
    ensures optional ==> !v.Null?
  {
    HeadMeaning(schema.fields, optional, ReadHead(schema.fields, optional).value,
                ReadHead(schema.fields, optional).value.wire, Null);
  }

  lemma {:induction false} Complete(schema: Json, optional: bool, c: Compiled, v: Json)
    requires Compile(schema, optional) == Success(c) && Satisfies(schema, v)
    ensures FillsForth(c, optional, v)
    decreases schema, 2
  {
    OptionalNeverNull(schema, optional, c, v);
    match c.plan
    case ValuePlan => PlainMeaning(schema, optional, c, v);
    case ArrayPlan(_, _) => CompleteArray(schema, optional, c, v);
    case ObjectPlan(_, _) => CompleteObject(schema, optional, c, v);
  }

  lemma {:induction false} CompleteArray(schema: Json, optional: bool, c: Compiled, v: Json)
    requires Compile(schema, optional) == Success(c) && c.plan.ArrayPlan?
    requires Satisfies(schema, v) && (optional ==> !v.Null?)
    ensures FillsForth(c, optional, v)
    decreases schema, 1
  {
    ArrayShape(schema, optional, c);
    var f, g := schema.fields, c.wire.fields;
    var w := Fill(v, c.plan);
    ContainerHead(f, optional, ReadHead(f, optional).value, g, v);
    ContainerHead(f, optional, ReadHead(f, optional).value, g, w);
    assert schema == Obj(f) && c.wire == Obj(g);
    ArraySatisfies(f, v);
    if v.Arr? {
      var items := Compile(f["items"], false).value;
      forall i | 0 <= i < |v.items| ensures FillsForth(items, false, v.items[i]) {
        Complete(f["items"], false, items, v.items[i]);
      }
      assert forall i | 0 <= i < |w.items| :: w.items[i] == Fill(v.items[i], items.plan);
      assert Restore(w, c.plan).value.items == v.items;
    }
    ArraySatisfies(g, w);
  }

  /** The member `v` fills to an accepted answer that restores to it and is not the null of absence. */
  ghost predicate MemberFills(property: PropertyPlan, wire: Json, v: Json) {
    && Satisfies(wire, Fill(v, property.plan))
    && (property.omitNull ==> !Fill(v, property.plan).Null?)
    && Restore(Fill(v, property.plan), property.plan) == Some(v)
  }

  /** Filling an object adds a null for each absent optional property and fills every other member. */
  lemma FilledFields(plan: Plan, members: map<string, Json>)
    requires plan.ObjectPlan? && members.Keys <= plan.properties.Keys
    requires forall k | k in plan.properties :: k in members || plan.properties[k].omitNull
    ensures Fill(Obj(members), plan).Obj? && Fill(Obj(members), plan).fields.Keys == plan.properties.Keys
    ensures forall k | k in plan.properties ::
              Fill(Obj(members), plan).fields[k] ==
              if k in members then Fill(members[k], plan.properties[k].plan) else Null
  {
  }

  /** Restoring removes exactly those nulls again. */
  lemma UnfilledFields(plan: Plan, members: map<string, Json>, w: map<string, Json>)
    requires plan.ObjectPlan? && members.Keys <= plan.properties.Keys == w.Keys
    requires forall k | k in w && k !in members :: plan.properties[k].omitNull && w[k].Null?
    requires forall k | k in members ::
               !Omitted(plan.properties, w, k) && Restore(w[k], plan.properties[k].plan) == Some(members[k])
    ensures Restore(Obj(w), plan) == Some(Obj(members))
  {
    var v := Restore(Obj(w), plan).value.fields;
    assert v.Keys == members.Keys;
    assert v == members;
  }

  lemma FillMembers(p: map<string, Json>, wires: map<string, Json>, plan: Plan, members: map<string, Json>)
    requires plan.ObjectPlan? && p.Keys == plan.properties.Keys == wires.Keys && members.Keys <= p.Keys
    requires forall k | k in p :: k in members || plan.properties[k].omitNull
    requires forall k | k in p && plan.properties[k].omitNull :: Satisfies(wires[k], Null)
    requires forall k | k in members :: MemberFills(plan.properties[k], wires[k], members[k])
    ensures var w := Fill(Obj(members), plan);
            && w.Obj? && w.fields.Keys == p.Keys
            && (forall k | k in w.fields :: Satisfies(wires[k], w.fields[k]))
            && Restore(w, plan) == Some(Obj(members))
  {
    FilledFields(plan, members);
    var w := Fill(Obj(members), plan).fields;
    forall k | k in p ensures Satisfies(wires[k], w[k]) {
      assert k in members ==> MemberFills(plan.properties[k], wires[k], members[k]);
    }
    UnfilledFields(plan, members, w);
  }

  lemma {:induction false} CompleteObject(schema: Json, optional: bool, c: Compiled, v: Json)
    requires Compile(schema, optional) == Success(c) && c.plan.ObjectPlan?
    requires Satisfies(schema, v) && (optional ==> !v.Null?)
    ensures FillsForth(c, optional, v)
    decreases schema, 1
  {
    var h, required := ObjectShape(schema, optional, c);
    var f, g := schema.fields, c.wire.fields;
    var w := Fill(v, c.plan);
    ContainerHead(f, optional, h, g, v);
    ContainerHead(f, optional, h, g, w);
    assert schema == Obj(f) && c.wire == Obj(g);
    ObjectSatisfies(f, v);
    if v.Obj? {
      RequiredMeaning(f, f["properties"].fields, required, v.fields);
      CompleteMembers(f, g, c.plan, h, required, v.fields);
      WireRequired(g, f["properties"].fields.Keys, w.fields);
    }
    ObjectSatisfies(g, w);
  }

  lemma {:induction false} CompleteMembers(f: map<string, Json>, g: map<string, Json>, plan: Plan, h: Head,
                                           required: set<string>, members: map<string, Json>)
    requires plan.ObjectPlan? && ObjectShaped(f, g, plan.properties, h, required)
    requires required <= members.Keys <= f["properties"].fields.Keys
    requires forall k | k in members.Keys * f["properties"].fields.Keys :: Satisfies(f["properties"].fields[k], members[k])
    ensures var w := Fill(Obj(members), plan);
            && w.Obj? && w.fields.Keys == f["properties"].fields.Keys
            && (forall k | k in w.fields :: Satisfies(g["properties"].fields[k], w.fields[k]))
            && Restore(w, plan) == Some(Obj(members))
    decreases Obj(f), 0
  {
    var p, wires := f["properties"].fields, g["properties"].fields;
    forall k | k in p
      ensures plan.properties[k].omitNull <==> k !in required
      ensures plan.properties[k].omitNull ==> Satisfies(wires[k], Null)
      ensures k in members ==> MemberFills(plan.properties[k], wires[k], members[k])
    {
      assert CompiledAt(p, required, Properties(wires, plan.properties), k);
      AbsentMember(p[k], k !in required, plan.properties[k], wires[k]);
      if k in members {
        CompleteMember(p[k], k !in required, plan.properties[k], wires[k], members[k]);
      }
    }
    FillMembers(p, wires, plan, members);
  }

  lemma {:induction false} CompleteMember(schema: Json, optional: bool, property: PropertyPlan, wire: Json, v: Json)
    requires Compile(schema, optional).Success?
    requires wire == Compile(schema, optional).value.wire && property.plan == Compile(schema, optional).value.plan
    requires property.omitNull ==> optional
    requires Satisfies(schema, v)
    ensures MemberFills(property, wire, v)
    decreases schema, 3
  {
    Complete(schema, optional, Compile(schema, optional).value, v);
  }

  /** The wire schema of an optional property accepts the null that stands for its absence. */
  lemma AbsentMember(schema: Json, optional: bool, property: PropertyPlan, wire: Json)
    requires Compile(schema, optional).Success?
    requires wire == Compile(schema, optional).value.wire
    requires property.omitNull == (optional && !Compile(schema, optional).value.acceptsNull)
    ensures property.omitNull <==> optional
    ensures optional ==> Satisfies(wire, Null)
  {
    var c := Compile(schema, optional).value;
    PropertyNull(schema, optional, c);
    match c.plan
    case ValuePlan => PlainMeaning(schema, optional, c, Null);
    case ArrayPlan(_, _) =>
      ArrayShape(schema, optional, c);
      ContainerHead(schema.fields, optional, ReadHead(schema.fields, optional).value, c.wire.fields, Null);
      ArraySatisfies(c.wire.fields, Null);
    case ObjectPlan(_, _) =>
      var h, required := ObjectShape(schema, optional, c);
      ContainerHead(schema.fields, optional, h, c.wire.fields, Null);
      ObjectSatisfies(c.wire.fields, Null);
  }

  // ---- The theorem ----

  /** Restoring is total on the answers the wire schema accepts, and lands in the source schema. */
  lemma RestoreTotalAndSound(schema: Json, c: Compiled, w: Json)
    requires CompileRoot(schema) == Success(c) && Satisfies(c.wire, w)
    ensures Restore(w, c.plan).Some? && Satisfies(schema, Restore(w, c.plan).value)
  {
    Sound(schema, false, c, w);
  }

  /** Every value of the source schema is the restoration of an accepted answer. */
  lemma RestoreOnto(schema: Json, c: Compiled, v: Json)
    requires CompileRoot(schema) == Success(c) && Satisfies(schema, v)
    ensures exists w :: Satisfies(c.wire, w) && Restore(w, c.plan) == Some(v)
  {
    Complete(schema, false, c, v);
    assert Satisfies(c.wire, Fill(v, c.plan)) && Restore(Fill(v, c.plan), c.plan) == Some(v);
  }

  /** No two accepted answers restore to the same value. */
  lemma RestoreInjective(schema: Json, c: Compiled, w: Json, w': Json)
    requires CompileRoot(schema) == Success(c) && Satisfies(c.wire, w) && Satisfies(c.wire, w')
    requires Restore(w, c.plan) == Restore(w', c.plan)
    ensures w == w'
  {
    Sound(schema, false, c, w);
    Sound(schema, false, c, w');
  }
}
