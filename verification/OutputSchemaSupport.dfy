/**
 * Which schemas the codec accepts, said without its order of checks, and what every
 * wire schema it emits looks like.
 */
module OutputSchemaSupport {
  import opened Wrappers
  import opened JsonValues
  import opened JsonSchema
  import opened NameOrder
  import opened OutputSchemaCodec
  import opened OutputSchemaBijection

  /** `type` names one supported kind, or pairs one other than null with null. */
  predicate Declares(f: map<string, Json>, t: Typed) {
    && "type" in f
    && var name := Str(KindName(t.kind));
       || (f["type"] == name && t.nullable == (t.kind == KNull))
       || (t.kind != KNull && t.nullable && (f["type"] == Arr([name, Str("null")]) || f["type"] == Arr([Str("null"), name])))
  }

  ghost predicate EnumSupported(f: map<string, Json>, t: Typed) {
    "enum" in f ==>
      && f["enum"].Arr? && f["enum"].items != []
      && t.kind !in {KObject, KArray}
      && (forall v | v in f["enum"].items :: IsPrimitive(v) && EntryFits(v, t))
      && (forall i, j | 0 <= i < j < |f["enum"].items| :: f["enum"].items[i] != f["enum"].items[j])
  }

  ghost predicate RequiredSupported(f: map<string, Json>, properties: map<string, Json>) {
    "required" in f ==>
      && f["required"].Arr?
      && var entries := f["required"].items;
         && (forall v | v in entries :: v.Str? && v.s in properties)
         && (forall i, j | 0 <= i < j < |entries| :: entries[i] != entries[j])
  }

  ghost predicate BoundsSupported(f: map<string, Json>) {
    && ("minimum" in f ==> f["minimum"].Num?)
    && ("maximum" in f ==> f["maximum"].Num?)
    && ("minimum" in f && "maximum" in f ==> f["minimum"].n <= f["maximum"].n)
  }

  predicate Requires(f: map<string, Json>, k: string) {
    "required" in f && f["required"].Arr? && Str(k) in f["required"].items
  }

  ghost predicate HeadSupported(f: map<string, Json>, optional: bool, t: Typed) {
    && Declares(f, t)
    && EnumSupported(f, t)
    && f.Keys <= Allowed(t.kind)
    && ("description" in f ==> f["description"].Str?)
    && !(optional && Satisfies(Obj(f), Null))
  }

  /** The supported subset; an optional property's schema must not already accept null. */
  ghost predicate Supported(s: Json, optional: bool)
    decreases s
  {
    && s.Obj?
    && exists t :: HeadSupported(s.fields, optional, t) && PartsSupported(s, t)
  }

  ghost predicate PartsSupported(s: Json, t: Typed)
    requires s.Obj?
    decreases s, 0
  {
    var f := s.fields;
    match t.kind
    case KObject =>
      && "additionalProperties" in f && f["additionalProperties"] == Bool(false)
      && "properties" in f && f["properties"].Obj?
      && RequiredSupported(f, f["properties"].fields)
      && forall k | k in f["properties"].fields :: Supported(f["properties"].fields[k], !Requires(f, k))
    case KArray => "items" in f && !f["items"].Arr? && Supported(f["items"], false)
    case KNumber => BoundsSupported(f)
    case KInteger => BoundsSupported(f)
    case _ => true
  }

  lemma DeclaresRead(f: map<string, Json>, t: Typed)
    ensures ReadType(f) == Success(t) <==> Declares(f, t)
  {
    assert KindOf(KindName(t.kind)) == Some(t.kind);
    if "type" in f && f["type"].Arr? && |f["type"].items| == 2 {
      var names := f["type"].items;
      assert names == [names[0], names[1]];
    }
  }

  lemma NullSatisfies(f: map<string, Json>)
    ensures Satisfies(Obj(f), Null) <==> HeadHolds(f, Null)
  {
  }

  lemma EnumRead(f: map<string, Json>, t: Typed)
    requires ReadType(f) == Success(t)
    ensures EnumSupported(f, t) <==>
            && ReadEnum(f).Success?
            && (ReadEnum(f).value != [] ==> t.kind !in {KObject, KArray})
            && (forall v | v in ReadEnum(f).value :: EntryFits(v, t))
  {
    if "enum" in f && f["enum"].Arr? {
      var entries := f["enum"].items;
      if EnumSupported(f, t) {
        forall i | 0 <= i < |entries| ensures IsPrimitive(entries[i]) {
          assert entries[i] in entries;
        }
      }
    }
  }

  lemma HeadRead(f: map<string, Json>, optional: bool, t: Typed)
    ensures HeadSupported(f, optional, t) <==> ReadHead(f, optional).Success? && ReadHead(f, optional).value.typed == t
  {
    DeclaresRead(f, t);
    if ReadType(f) == Success(t) {
      EnumRead(f, t);
      NullSatisfies(f);
      if EnumSupported(f, t) {
        NullHead(f, t, ReadEnum(f).value);
      }
    }
  }

  /** The codec's own test for "accepts null" is the meaning of the schema's head at null. */
  lemma NullHead(f: map<string, Json>, t: Typed, entries: seq<Json>)
    requires ReadType(f) == Success(t) && ReadEnum(f) == Success(entries)
    requires forall v | v in entries :: EntryFits(v, t)
    ensures HeadHolds(f, Null) <==> t.kind == KNull || (t.nullable && (entries == [] || Null in entries))
  {
    TypeMeaning(f, t, Null);
    KindNames(t.kind, Null);
    if entries != [] {
      assert f["enum"] == Arr(entries);
      assert entries[0] in entries;
    }
  }

  lemma {:induction false} RequiredRead(entries: seq<Json>, properties: map<string, Json>, n: nat)
    requires n <= |entries|
    ensures RequiredNames(entries, properties, n).Success? <==>
            && (forall i | 0 <= i < n :: entries[i].Str? && entries[i].s in properties)
            && (forall i, j | 0 <= i < j < n :: entries[i] != entries[j])
  {
    if n > 0 {
      RequiredRead(entries, properties, n - 1);
      if RequiredNames(entries, properties, n - 1).Success? {
        var before := RequiredNames(entries, properties, n - 1).value;
        RequiredNamesMeaning(entries, properties, n - 1, before);
        var entry := entries[n - 1];
        if entry.Str? {
          assert entry.s in before <==> exists i | 0 <= i < n - 1 :: entries[i] == entry;
        }
      }
    }
  }

  lemma RequiresRead(f: map<string, Json>, properties: map<string, Json>)
    ensures ReadRequired(f, properties).Success? <==> RequiredSupported(f, properties)
    ensures ReadRequired(f, properties).Success? ==>
              forall k :: k in ReadRequired(f, properties).value <==> Requires(f, k)
  {
    if "required" in f && f["required"].Arr? {
      var entries := f["required"].items;
      RequiredRead(entries, properties, |entries|);
      if RequiredNames(entries, properties, |entries|).Success? {
        RequiredNamesMeaning(entries, properties, |entries|, RequiredNames(entries, properties, |entries|).value);
      }
    }
  }

  lemma {:induction false} PropertiesRead(properties: Json, names: seq<string>, required: set<string>)
    requires properties.Obj? && forall k | k in names :: k in properties.fields
    ensures CompileProperties(properties, names, required).Success? <==>
            forall k | k in names :: Compile(properties.fields[k], k !in required).Success?
    decreases |names|
  {
    if names != [] {
      var front := names[..|names| - 1];
      var last := names[|names| - 1];
      assert names == front + [last];
      assert forall k :: k in names <==> k in front || k == last;
      PropertiesRead(properties, front, required);
    }
  }

  /** The codec accepts exactly the supported subset. */
  lemma {:induction false} CompileAccepts(s: Json, optional: bool)
    ensures Compile(s, optional).Success? <==> Supported(s, optional)
    decreases s, 2
  {
    if s.Obj? {
      var f := s.fields;
      forall t ensures HeadSupported(f, optional, t) <==> ReadHead(f, optional).Success? && ReadHead(f, optional).value.typed == t {
        HeadRead(f, optional, t);
      }
      if ReadHead(f, optional).Success? {
        var t := ReadHead(f, optional).value.typed;
        PartsAccepted(s, optional, t);
        assert HeadSupported(f, optional, t);
      }
    }
  }

  lemma {:induction false} PartsAccepted(s: Json, optional: bool, t: Typed)
    requires s.Obj? && ReadHead(s.fields, optional).Success? && ReadHead(s.fields, optional).value.typed == t
    ensures Compile(s, optional).Success? <==> PartsSupported(s, t)
    decreases s, 1
  {
    var f := s.fields;
    if t.kind == KObject {
      if "properties" in f && f["properties"].Obj? {
        assert s == Obj(f);
        ObjectAccepted(f);
      }
    } else if t.kind == KArray {
      if "items" in f {
        CompileAccepts(f["items"], false);
      }
    }
  }

  lemma {:induction false} ObjectAccepted(f: map<string, Json>)
    requires "properties" in f && f["properties"].Obj?
    ensures (&& ReadRequired(f, f["properties"].fields).Success?
             && CompileProperties(f["properties"], Sorted(f["properties"].fields.Keys),
                                  ReadRequired(f, f["properties"].fields).value).Success?) <==>
            (&& RequiredSupported(f, f["properties"].fields)
             && forall k | k in f["properties"].fields :: Supported(f["properties"].fields[k], !Requires(f, k)))
    decreases Obj(f), 0
  {
    var p := f["properties"].fields;
    RequiresRead(f, p);
    if RequiredSupported(f, p) {
      var required := ReadRequired(f, p).value;
      PropertiesRead(f["properties"], Sorted(p.Keys), required);
      forall k | k in p ensures Compile(p[k], k !in required).Success? <==> Supported(p[k], !Requires(f, k)) {
        CompileAccepts(p[k], k !in required);
      }
    }
  }

  // ---- The wire schema is strict ----

  predicate NamesType(f: map<string, Json>, name: string) {
    "type" in f && (f["type"] == Str(name) || (f["type"].Arr? && Str(name) in f["type"].items))
  }

  /** Every object it describes is closed and requires each of its properties, all the way down. */
  ghost predicate Strict(wire: Json)
    decreases wire
  {
    && wire.Obj?
    && (NamesType(wire.fields, "object") ==>
          && "properties" in wire.fields && wire.fields["properties"].Obj?
          && "additionalProperties" in wire.fields && wire.fields["additionalProperties"] == Bool(false)
          && (forall k | k in wire.fields["properties"].fields :: Requires(wire.fields, k))
          && (forall k | k in wire.fields["properties"].fields :: Strict(wire.fields["properties"].fields[k])))
    && (NamesType(wire.fields, "array") ==> "items" in wire.fields && Strict(wire.fields["items"]))
  }

  lemma HeadNames(f: map<string, Json>, optional: bool, h: Head, g: map<string, Json>)
    requires ReadHead(f, optional) == Success(h) && SameAt(g, h.wire, "type")
    ensures NamesType(g, "object") <==> h.typed.kind == KObject
    ensures NamesType(g, "array") <==> h.typed.kind == KArray
  {
  }

  lemma {:induction false} WireIsStrict(schema: Json, optional: bool, c: Compiled)
    requires Compile(schema, optional) == Success(c)
    ensures Strict(c.wire)
    decreases schema
  {
    match c.plan
    case ValuePlan =>
      PlainShape(schema, optional, c);
      HeadNames(schema.fields, optional, ReadHead(schema.fields, optional).value, c.wire.fields);
      PlainKind(schema, optional, c);
    case ArrayPlan(_, _) =>
      ArrayShape(schema, optional, c);
      HeadNames(schema.fields, optional, ReadHead(schema.fields, optional).value, c.wire.fields);
      WireIsStrict(schema.fields["items"], false, Compile(schema.fields["items"], false).value);
    case ObjectPlan(_, _) =>
      var h, required := ObjectShape(schema, optional, c);
      var f, g := schema.fields, c.wire.fields;
      HeadNames(f, optional, h, g);
      var p, wires := f["properties"].fields, g["properties"].fields;
      forall k | k in wires ensures Requires(g, k) && Strict(wires[k]) {
        var order := Sorted(p.Keys);
        assert CompiledAt(p, required, Properties(wires, c.plan.properties), k);
        assert k in order;
        var i :| 0 <= i < |order| && order[i] == k;
        assert g["required"].items[i] == Str(k);
        WireIsStrict(p[k], k !in required, Compile(p[k], k !in required).value);
      }
  }

  lemma PlainKind(schema: Json, optional: bool, c: Compiled)
    requires Compile(schema, optional) == Success(c) && c.plan.ValuePlan?
    ensures ReadHead(schema.fields, optional).value.typed.kind !in {KObject, KArray}
  {
  }

  // ---- The wire schema keeps what the schema tells the model in words ----

  /** At every depth the description is the one the source gives, or there is none on either side. */
  ghost predicate Described(source: Json, wire: Json)
    decreases source
  {
    && source.Obj? && wire.Obj?
    && SameAt(wire.fields, source.fields, "description")
    && ("items" in source.fields ==> "items" in wire.fields && Described(source.fields["items"], wire.fields["items"]))
    && ("properties" in source.fields && source.fields["properties"].Obj? ==>
          && "properties" in wire.fields && wire.fields["properties"].Obj?
          && var p, wires := source.fields["properties"].fields, wire.fields["properties"].fields;
             forall k | k in p :: k in wires && Described(p[k], wires[k]))
  }

  lemma HeadDescribed(f: map<string, Json>, optional: bool, h: Head)
    requires ReadHead(f, optional) == Success(h)
    ensures SameAt(h.wire, f, "description")
  {
  }

  lemma NodeDescribed(schema: Json, optional: bool, c: Compiled)
    requires Compile(schema, optional) == Success(c)
    ensures schema.Obj? && c.wire.Obj? && SameAt(c.wire.fields, schema.fields, "description")
  {
    hide ReadHead, CompileProperties, ReadRequired, Sorted, NameList;
    HeadDescribed(schema.fields, optional, ReadHead(schema.fields, optional).value);
  }

  lemma {:induction false} WireKeepsDescriptions(schema: Json, optional: bool, c: Compiled)
    requires Compile(schema, optional) == Success(c)
    ensures Described(schema, c.wire)
    decreases schema, 1
  {
    hide Compile;
    NodeDescribed(schema, optional, c);
    match c.plan
    case ValuePlan =>
      PlainShape(schema, optional, c);
    case ArrayPlan(_, _) =>
      ArrayShape(schema, optional, c);
      WireKeepsDescriptions(schema.fields["items"], false, Compile(schema.fields["items"], false).value);
    case ObjectPlan(_, _) =>
      ObjectKeepsDescriptions(schema, optional, c);
  }

  lemma {:induction false} ObjectKeepsDescriptions(schema: Json, optional: bool, c: Compiled)
    requires Compile(schema, optional) == Success(c) && c.plan.ObjectPlan?
    ensures Described(schema, c.wire)
    decreases schema, 0
  {
    hide Compile, ReadHead, Allowed;
    NodeDescribed(schema, optional, c);
    var h, required := ObjectShape(schema, optional, c);
    var p, wires := schema.fields["properties"].fields, c.wire.fields["properties"].fields;
    forall k | k in p ensures k in wires && Described(p[k], wires[k]) {
      assert CompiledAt(p, required, Properties(wires, c.plan.properties), k);
      WireKeepsDescriptions(p[k], k !in required, Compile(p[k], k !in required).value);
    }
    hide SameAt;
  }
}
