/**
 * The Codex output-schema codec: compiling a schema into the strict wire schema the
 * model answers under, and restoring such an answer to the shape the caller declared.
 */
module OutputSchemaCodec {
  import opened Wrappers
  import opened JsonValues
  import opened NameOrder

  datatype Kind = KObject | KArray | KString | KNumber | KInteger | KBoolean | KNull

  datatype Rejection =
    | SchemaNotObject | TypeUnreadable | TypeUnsupported | UnionUnsupported
    | EnumUnreadable | EnumEntryNotPrimitive | EnumRepeats | EnumOnContainer | EnumMistyped
    | OptionalAcceptsNull | UnknownKeyword | DescriptionNotString
    | NotClosed | RequiredUnreadable | RequiredEntryNotString | RequiredUndeclared | RequiredRepeats
    | TupleItems | ItemsMissing | BoundNotNumber | BoundsCrossed | RootNotObject

  datatype Plan =
    | ValuePlan
    | ArrayPlan(acceptsNull: bool, items: Plan)
    | ObjectPlan(acceptsNull: bool, properties: map<string, PropertyPlan>)

  datatype PropertyPlan = PropertyPlan(omitNull: bool, plan: Plan)

  datatype Compiled = Compiled(wire: Json, plan: Plan, acceptsNull: bool)

  datatype Typed = Typed(kind: Kind, nullable: bool)

  /** What a schema says before its parts are compiled. */
  datatype Head = Head(typed: Typed, acceptsNull: bool, wire: map<string, Json>)

  datatype Properties = Properties(wires: map<string, Json>, plans: map<string, PropertyPlan>)

  function KindName(k: Kind): string {
    match k
    case KObject => "object"
    case KArray => "array"
    case KString => "string"
    case KNumber => "number"
    case KInteger => "integer"
    case KBoolean => "boolean"
    case KNull => "null"
  }

  function KindOf(name: string): (k: Option<Kind>)
    ensures k.Some? ==> KindName(k.value) == name
  {
    if name == "object" then Some(KObject)
    else if name == "array" then Some(KArray)
    else if name == "string" then Some(KString)
    else if name == "number" then Some(KNumber)
    else if name == "integer" then Some(KInteger)
    else if name == "boolean" then Some(KBoolean)
    else if name == "null" then Some(KNull)
    else None
  }

  function Allowed(k: Kind): set<string> {
    var common := {"type", "description", "enum"};
    match k
    case KObject => common + {"properties", "required", "additionalProperties"}
    case KArray => common + {"items"}
    case KNumber => common + {"minimum", "maximum"}
    case KInteger => common + {"minimum", "maximum"}
    case _ => common
  }

  // ---- Reading one schema's own keywords ----

  function ReadType(f: map<string, Json>): Result<Typed, Rejection> {
    if "type" !in f then Failure(TypeUnreadable)
    else match f["type"]
      case Str(name) =>
        var k := KindOf(name);
        if k.None? then Failure(TypeUnsupported) else Success(Typed(k.value, k.value == KNull))
      case Arr(names) =>
        if |names| != 2 || names[0] == names[1] || Str("null") !in names then Failure(UnionUnsupported)
        else
          var other := if names[0] == Str("null") then names[1] else names[0];
          if !other.Str? || KindOf(other.s).None? then Failure(UnionUnsupported)
          else Success(Typed(KindOf(other.s).value, true))
      case _ => Failure(TypeUnreadable)
  }

  /** The declared enum, empty when there is none: a declared one never is. */
  function ReadEnum(f: map<string, Json>): Result<seq<Json>, Rejection> {
    if "enum" !in f then Success([])
    else if !f["enum"].Arr? || f["enum"].items == [] then Failure(EnumUnreadable)
    else
      var entries := f["enum"].items;
      if exists i | 0 <= i < |entries| :: !IsPrimitive(entries[i]) then Failure(EnumEntryNotPrimitive)
      else if exists i, j | 0 <= i < j < |entries| :: entries[i] == entries[j] then Failure(EnumRepeats)
      else Success(entries)
  }

  predicate EntryFits(v: Json, t: Typed) {
    || (v.Null? && t.nullable)
    || match t.kind
       case KNull => v.Null?
       case KInteger => v.Num? && IsInteger(v.n)
       case KNumber => v.Num?
       case KString => v.Str?
       case KBoolean => v.Bool?
       case _ => false
  }

  function ReadHead(f: map<string, Json>, optional: bool): Result<Head, Rejection> {
    var t :- ReadType(f);
    var entries :- ReadEnum(f);
    if entries != [] && t.kind in {KObject, KArray} then Failure(EnumOnContainer)
    else if exists i | 0 <= i < |entries| :: !EntryFits(entries[i], t) then Failure(EnumMistyped)
    else
      var acceptsNull := t.kind == KNull || (t.nullable && (entries == [] || Null in entries));
      if optional && acceptsNull then Failure(OptionalAcceptsNull)
      else if exists k | k in f :: k !in Allowed(t.kind) then Failure(UnknownKeyword)
      else if "description" in f && !f["description"].Str? then Failure(DescriptionNotString)
      else Success(Head(t, acceptsNull, HeadWire(f, t, entries, optional)))
  }

  function HeadWire(f: map<string, Json>, t: Typed, entries: seq<Json>, optional: bool): map<string, Json> {
    var name := Str(KindName(t.kind));
    var typed := map["type" := if t.kind != KNull && (optional || t.nullable) then Arr([name, Str("null")]) else name];
    var described := if "description" in f then typed["description" := f["description"]] else typed;
    if entries == [] then described
    else described["enum" := Arr(if optional && Null !in entries then entries + [Null] else entries)]
  }

  // ---- The parts of a schema ----

  /** The names `entries[..n]` require, checked one by one from the left. */
  function RequiredNames(entries: seq<Json>, properties: map<string, Json>, n: nat): Result<set<string>, Rejection>
    requires n <= |entries|
  {
    if n == 0 then Success({})
    else
      var before :- RequiredNames(entries, properties, n - 1);
      var entry := entries[n - 1];
      if !entry.Str? then Failure(RequiredEntryNotString)
      else if entry.s !in properties then Failure(RequiredUndeclared)
      else if entry.s in before then Failure(RequiredRepeats)
      else Success(before + {entry.s})
  }

  function ReadRequired(f: map<string, Json>, properties: map<string, Json>): Result<set<string>, Rejection> {
    if "required" !in f then Success({})
    else if !f["required"].Arr? then Failure(RequiredUnreadable)
    else RequiredNames(f["required"].items, properties, |f["required"].items|)
  }

  function WithBound(f: map<string, Json>, keyword: string, wire: map<string, Json>): Result<map<string, Json>, Rejection> {
    if keyword !in f then Success(wire)
    else if !f[keyword].Num? then Failure(BoundNotNumber)
    else Success(wire[keyword := f[keyword]])
  }

  function WithBounds(f: map<string, Json>, wire: map<string, Json>): Result<map<string, Json>, Rejection> {
    var lower :- WithBound(f, "minimum", wire);
    var both :- WithBound(f, "maximum", lower);
    if "minimum" in f && "maximum" in f && f["minimum"].n > f["maximum"].n then Failure(BoundsCrossed)
    else Success(both)
  }

  function NameList(names: seq<string>): (items: seq<Json>)
    ensures |items| == |names|
    ensures forall i | 0 <= i < |names| :: items[i] == Str(names[i])
  {
    seq(|names|, i requires 0 <= i < |names| => Str(names[i]))
  }

  function ObjectWire(base: map<string, Json>, wires: map<string, Json>, names: seq<string>): map<string, Json> {
    base["properties" := Obj(wires)]["required" := Arr(NameList(names))]["additionalProperties" := Bool(false)]
  }

  // ---- The compiler ----

  function Compile(schema: Json, optional: bool): Result<Compiled, Rejection>
    decreases schema, 1
  {
    if !schema.Obj? then Failure(SchemaNotObject)
    else
      var f := schema.fields;
      var h :- ReadHead(f, optional);
      match h.typed.kind
      case KObject =>
        if "additionalProperties" !in f || f["additionalProperties"] != Bool(false) then Failure(NotClosed)
        else if "properties" !in f || !f["properties"].Obj? then Failure(SchemaNotObject)
        else
          var required :- ReadRequired(f, f["properties"].fields);
          var names := Sorted(f["properties"].fields.Keys);
          var p :- CompileProperties(f["properties"], names, required);
          Success(Compiled(Obj(ObjectWire(h.wire, p.wires, names)), ObjectPlan(h.acceptsNull, p.plans), h.acceptsNull))
      case KArray =>
        if "items" !in f then Failure(ItemsMissing)
        else if f["items"].Arr? then Failure(TupleItems)
        else
          var items :- Compile(f["items"], false);
          Success(Compiled(Obj(h.wire["items" := items.wire]), ArrayPlan(h.acceptsNull, items.plan), h.acceptsNull))
      case KNumber =>
        var wire :- WithBounds(f, h.wire);
        Success(Compiled(Obj(wire), ValuePlan, h.acceptsNull))
      case KInteger =>
        var wire :- WithBounds(f, h.wire);
        Success(Compiled(Obj(wire), ValuePlan, h.acceptsNull))
      case _ => Success(Compiled(Obj(h.wire), ValuePlan, h.acceptsNull))
  }

  /** The properties `names`, compiled from the left. */
  function CompileProperties(properties: Json, names: seq<string>, required: set<string>): (r: Result<Properties, Rejection>)
    requires properties.Obj? && forall k | k in names :: k in properties.fields
    decreases properties, 0, |names|
  {
    if names == [] then Success(Properties(map[], map[]))
    else
      var before :- CompileProperties(properties, names[..|names| - 1], required);
      var name := names[|names| - 1];
      var optional := name !in required;
      var c :- Compile(properties.fields[name], optional);
      Success(Properties(before.wires[name := c.wire],
                         before.plans[name := PropertyPlan(optional && !c.acceptsNull, c.plan)]))
  }

  /** The whole codec: the root must be a schema for objects that are never null. */
  function CompileRoot(schema: Json): Result<Compiled, Rejection> {
    if !schema.Obj? then Failure(SchemaNotObject)
    else
      var t :- ReadType(schema.fields);
      if t != Typed(KObject, false) then Failure(RootNotObject)
      else Compile(schema, false)
  }

  // ---- Restoring an answer ----

  predicate Omitted(plans: map<string, PropertyPlan>, members: map<string, Json>, k: string) {
    k in plans && k in members && plans[k].omitNull && members[k].Null?
  }

  /** The restored answer, or None where the answer does not have the planned shape. */
  function Restore(value: Json, plan: Plan): Option<Json>
    decreases plan
  {
    match plan
    case ValuePlan => Some(value)
    case ArrayPlan(acceptsNull, items) =>
      if value.Null? && acceptsNull then Some(Null)
      else if !value.Arr? then None
      else if exists i | 0 <= i < |value.items| :: Restore(value.items[i], items).None? then None
      else Some(Arr(seq(|value.items|, i requires 0 <= i < |value.items| => Restore(value.items[i], items).value)))
    case ObjectPlan(acceptsNull, plans) =>
      if value.Null? && acceptsNull then Some(Null)
      else if !value.Obj? then None
      else
        var members := value.fields;
        if exists k | k in plans && k in members && !Omitted(plans, members, k) :: Restore(members[k], plans[k].plan).None?
        then None
        else Some(Obj(map k | k in members && !Omitted(plans, members, k) ::
                        if k in plans then Restore(members[k], plans[k].plan).value else members[k]))
  }

  /** The answer a value of the source schema comes from: every absent optional property is null. */
  function Fill(value: Json, plan: Plan): Json
    decreases plan
  {
    match plan
    case ValuePlan => value
    case ArrayPlan(_, items) =>
      if !value.Arr? then value
      else Arr(seq(|value.items|, i requires 0 <= i < |value.items| => Fill(value.items[i], items)))
    case ObjectPlan(_, plans) =>
      if !value.Obj? then value
      else Obj(map k | k in value.fields.Keys + plans.Keys && (k in value.fields || (k in plans && plans[k].omitNull)) ::
                 if k !in value.fields then Null
                 else if k in plans then Fill(value.fields[k], plans[k].plan)
                 else value.fields[k])
  }

  // ---- The codec as it runs: loops that fill the wire schema and edit the answer ----

  method RequiredProperties(f: map<string, Json>, properties: map<string, Json>) returns (r: Result<set<string>, Rejection>)
    ensures r == ReadRequired(f, properties)
  {
    if "required" !in f {
      return Success({});
    }
    if !f["required"].Arr? {
      return Failure(RequiredUnreadable);
    }
    var entries := f["required"].items;
    var required: set<string> := {};
    var i := 0;
    while i < |entries|
      invariant 0 <= i <= |entries|
      invariant RequiredNames(entries, properties, i) == Success(required)
    {
      var entry := entries[i];
      if !entry.Str? || entry.s !in properties || entry.s in required {
        RequiredStops(entries, properties, i + 1, |entries|);
        return if !entry.Str? then Failure(RequiredEntryNotString)
               else if entry.s !in properties then Failure(RequiredUndeclared) else Failure(RequiredRepeats);
      }
      required := required + {entry.s};
      i := i + 1;
    }
    return Success(required);
  }

  /** The first bad entry decides the outcome. */
  lemma {:induction false} RequiredStops(entries: seq<Json>, properties: map<string, Json>, i: nat, n: nat)
    requires i <= n <= |entries| && RequiredNames(entries, properties, i).Failure?
    ensures RequiredNames(entries, properties, n) == RequiredNames(entries, properties, i)
  {
    if i < n {
      RequiredStops(entries, properties, i, n - 1);
    }
  }

  method CompileNumericBounds(f: map<string, Json>, base: map<string, Json>) returns (r: Result<map<string, Json>, Rejection>)
    ensures r == WithBounds(f, base)
  {
    var wireSchema := base;
    var keywords := ["minimum", "maximum"];
    var i := 0;
    while i < |keywords|
      invariant 0 <= i <= 2
      invariant i == 0 ==> wireSchema == base
      invariant i == 1 ==> WithBound(f, "minimum", base) == Success(wireSchema)
      invariant i == 2 ==>
                  && WithBound(f, "minimum", base).Success?
                  && WithBound(f, "maximum", WithBound(f, "minimum", base).value) == Success(wireSchema)
    {
      var keyword := keywords[i];
      if keyword in f {
        if !f[keyword].Num? {
          return Failure(BoundNotNumber);
        }
        wireSchema := wireSchema[keyword := f[keyword]];
      }
      i := i + 1;
    }
    if "minimum" in f && "maximum" in f && f["minimum"].n > f["maximum"].n {
      return Failure(BoundsCrossed);
    }
    return Success(wireSchema);
  }

  method CompileSchema(value: Json, optional: bool) returns (r: Result<Compiled, Rejection>)
    ensures r == Compile(value, optional)
    decreases value, 3
  {
    if !value.Obj? {
      return Failure(SchemaNotObject);
    }
    var f := value.fields;
    var head := ReadHead(f, optional);
    if head.Failure? {
      return Failure(head.error);
    }
    var typed, entries := head.value.typed, ReadEnum(f).value;
    var name := Str(KindName(typed.kind));
    var wireSchema := map["type" := if typed.kind != KNull && (optional || typed.nullable)
                                    then Arr([name, Str("null")]) else name];
    if "description" in f {
      wireSchema := wireSchema["description" := f["description"]];
    }
    if entries != [] {
      wireSchema := wireSchema["enum" := Arr(if optional && Null !in entries then entries + [Null] else entries)];
    }
    match typed.kind {
      case KObject => r := CompileObject(value, optional, head.value, wireSchema);
      case KArray =>
        if "items" !in f {
          return Failure(ItemsMissing);
        }
        if f["items"].Arr? {
          return Failure(TupleItems);
        }
        var items := CompileSchema(f["items"], false);
        if items.Failure? {
          return Failure(items.error);
        }
        wireSchema := wireSchema["items" := items.value.wire];
        return Success(Compiled(Obj(wireSchema), ArrayPlan(head.value.acceptsNull, items.value.plan), head.value.acceptsNull));
      case KNumber =>
        var bounded := CompileNumericBounds(f, wireSchema);
        return if bounded.Failure? then Failure(bounded.error)
               else Success(Compiled(Obj(bounded.value), ValuePlan, head.value.acceptsNull));
      case KInteger =>
        var bounded := CompileNumericBounds(f, wireSchema);
        return if bounded.Failure? then Failure(bounded.error)
               else Success(Compiled(Obj(bounded.value), ValuePlan, head.value.acceptsNull));
      case _ => return Success(Compiled(Obj(wireSchema), ValuePlan, head.value.acceptsNull));
    }
  }

  method CompileObject(schema: Json, ghost optional: bool, head: Head, base: map<string, Json>) returns (r: Result<Compiled, Rejection>)
    requires schema.Obj? && ReadHead(schema.fields, optional) == Success(head)
    requires base == head.wire && head.typed.kind == KObject
    ensures r == Compile(schema, optional)
    decreases schema, 2
  {
    var f, wireSchema := schema.fields, base;
    if "additionalProperties" !in f || f["additionalProperties"] != Bool(false) {
      return Failure(NotClosed);
    }
    if "properties" !in f || !f["properties"].Obj? {
      return Failure(SchemaNotObject);
    }
    var properties := f["properties"];
    var required := RequiredProperties(f, properties.fields);
    if required.Failure? {
      return Failure(required.error);
    }
    var names := Sorted(properties.fields.Keys);
    var entries := CompileEntries(properties, names, required.value);
    if entries.Failure? {
      return Failure(entries.error);
    }
    wireSchema := wireSchema["properties" := Obj(entries.value.wires)];
    wireSchema := wireSchema["required" := Arr(NameList(names))];
    wireSchema := wireSchema["additionalProperties" := Bool(false)];
    return Success(Compiled(Obj(wireSchema), ObjectPlan(head.acceptsNull, entries.value.plans), head.acceptsNull));
  }

  method CompileEntries(properties: Json, names: seq<string>, required: set<string>) returns (r: Result<Properties, Rejection>)
    requires properties.Obj? && forall k | k in names :: k in properties.fields
    ensures r == CompileProperties(properties, names, required)
    decreases properties, 4
  {
    var wires: map<string, Json> := map[];
    var plans: map<string, PropertyPlan> := map[];
    var i := 0;
    while i < |names|
      invariant 0 <= i <= |names|
      invariant CompileProperties(properties, names[..i], required) == Success(Properties(wires, plans))
    {
      var name := names[i];
      assert name in names && names[..i + 1][..i] == names[..i];
      var optional := name !in required;
      var compiled := CompileSchema(properties.fields[name], optional);
      if compiled.Failure? {
        PropertiesStop(properties, names, required, i + 1);
        return Failure(compiled.error);
      }
      wires := wires[name := compiled.value.wire];
      plans := plans[name := PropertyPlan(optional && !compiled.value.acceptsNull, compiled.value.plan)];
      i := i + 1;
    }
    assert names[..i] == names;
    return Success(Properties(wires, plans));
  }

  /** The first property that does not compile decides the outcome. */
  lemma {:induction false} PropertiesStop(properties: Json, names: seq<string>, required: set<string>, i: nat)
    requires properties.Obj? && (forall k | k in names :: k in properties.fields) && i <= |names|
    requires CompileProperties(properties, names[..i], required).Failure?
    ensures CompileProperties(properties, names, required) == CompileProperties(properties, names[..i], required)
    decreases |names|
  {
    if i == |names| {
      assert names[..i] == names;
    } else {
      var front := names[..|names| - 1];
      assert front[..i] == names[..i];
      PropertiesStop(properties, front, required, i);
    }
  }

  method RestoreValue(value: Json, plan: Plan) returns (r: Option<Json>)
    ensures r == Restore(value, plan)
    decreases plan, 1
  {
    match plan {
      case ValuePlan => return Some(value);
      case ArrayPlan(acceptsNull, items) =>
        if value.Null? && acceptsNull {
          return Some(Null);
        }
        if !value.Arr? {
          return None;
        }
        var restored: seq<Json> := [];
        var i := 0;
        while i < |value.items|
          invariant 0 <= i == |restored| <= |value.items|
          invariant forall j | 0 <= j < i :: Restore(value.items[j], items) == Some(restored[j])
        {
          var entry := RestoreValue(value.items[i], items);
          if entry.None? {
            return None;
          }
          restored := restored + [entry.value];
          i := i + 1;
        }
        assert Restore(value, plan).value.items == restored;
        return Some(Arr(restored));
      case ObjectPlan(acceptsNull, plans) =>
        if value.Null? && acceptsNull {
          return Some(Null);
        }
        if !value.Obj? {
          return None;
        }
        r := RestoreProperties(value.fields, plan);
    }
  }

  method RestoreProperties(members: map<string, Json>, plan: Plan) returns (r: Option<Json>)
    requires plan.ObjectPlan?
    ensures r == Restore(Obj(members), plan)
    decreases plan, 0
  {
    var plans := plan.properties;
    var restored := members;
    var remaining := plans.Keys;
    while remaining != {}
      invariant remaining <= plans.Keys
      invariant forall k :: k in restored <==> k in members && (k in remaining || !Omitted(plans, members, k))
      invariant forall k | k in restored && (k in remaining || k !in plans) :: restored[k] == members[k]
      invariant forall k | k in restored && k in plans && k !in remaining ::
                  Restore(members[k], plans[k].plan) == Some(restored[k])
      decreases remaining
    {
      var name :| name in remaining;
      if name in restored {
        if plans[name].omitNull && restored[name].Null? {
          restored := restored - {name};
        } else {
          var entry := RestoreValue(restored[name], plans[name].plan);
          if entry.None? {
            return None;
          }
          restored := restored[name := entry.value];
        }
      }
      remaining := remaining - {name};
    }
    assert Restore(Obj(members), plan).value.fields == restored;
    return Some(Obj(restored));
  }
}
