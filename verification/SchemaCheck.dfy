/** The check of tool arguments against the JSON Schema a tool declares
    (openai_service.go): type, required, properties and additionalProperties, five
    levels deep. */
module SchemaCheck {
  import opened Text

  /** A decoded JSON value; objects decode to Go maps, numbers to doubles. */
  datatype Json =
    | Null
    | Bool(b: bool)
    | Number(n: real)
    | Str(s: string)
    | Arr(items: seq<Json>)
    | Obj(fields: map<string, Json>)

  type Schema = map<string, Json>

  const MAX_SCHEMA_DEPTH: nat := 4
  const TWO_TO_THE_63: real := 9223372036854775808.0

  /** A double that survives the conversion to a 64-bit integer and back. */
  predicate IsWhole(n: real) {
    n.Floor as real == n && -TWO_TO_THE_63 <= n < TWO_TO_THE_63
  }

  // ---- Reading a schema ----

  function TrimmedStrings(items: seq<Json>): seq<string> {
    if items == [] then []
    else
      var last := items[|items| - 1];
      TrimmedStrings(items[..|items| - 1]) + (if last.Str? && TrimSpace(last.s) != "" then [TrimSpace(last.s)] else [])
  }

  /** schemaStringSlice applied to the schema's "required". */
  function Required(schema: Schema): seq<string> {
    if "required" in schema && schema["required"].Arr? then TrimmedStrings(schema["required"].items) else []
  }

  /** schemaTypes. */
  function Types(schema: Schema): seq<string> {
    if "type" !in schema then []
    else match schema["type"]
      case Str(s) => if TrimSpace(s) == "" then [] else [TrimSpace(s)]
      case Arr(items) => TrimmedStrings(items)
      case _ => []
  }

  function Properties(schema: Schema): map<string, Json> {
    if "properties" in schema && schema["properties"].Obj? then schema["properties"].fields else map[]
  }

  /** The properties whose schema is an object; the others are ignored. */
  function PropertySchemas(schema: Schema): map<string, Schema> {
    map k | k in Properties(schema) && Properties(schema)[k].Obj? :: Properties(schema)[k].fields
  }

  predicate Shut(schema: Schema) {
    "additionalProperties" in schema && schema["additionalProperties"] == Bool(false)
  }

  /** The code closes an object only when some property has an object as schema. */
  predicate Closed(schema: Schema) {
    Shut(schema) && PropertySchemas(schema) != map[]
  }

  // ---- What conformance means ----

  /** A value of the named type; an unknown type name accepts anything. */
  predicate HasType(value: Json, typ: string) {
    if typ == "object" then value.Obj?
    else if typ == "array" then value.Arr?
    else if typ == "string" then value.Str?
    else if typ == "number" then value.Number?
    else if typ == "integer" then value.Number? && IsWhole(value.n)
    else if typ == "boolean" then value.Bool?
    else if typ == "null" then value.Null?
    else true
  }

  ghost predicate TypeOk(value: Json, schema: Schema) {
    Types(schema) == [] || exists typ :: typ in Types(schema) && HasType(value, typ)
  }

  /** What one schema asks of one value, its properties aside. */
  ghost predicate Meets(value: Json, schema: Schema) {
    && TypeOk(value, schema)
    && (value.Obj? ==>
      && (forall key :: key in Required(schema) ==> key in value.fields)
      && (Closed(schema) ==> value.fields.Keys <= PropertySchemas(schema).Keys))
  }

  /** The value a path of object keys leads to, if it leads anywhere. */
  ghost predicate Leads(value: Json, path: seq<string>) {
    path == [] || (value.Obj? && path[0] in value.fields && Leads(value.fields[path[0]], path[1..]))
  }

  ghost function At(value: Json, path: seq<string>): Json
    requires Leads(value, path)
  {
    if path == [] then value else At(value.fields[path[0]], path[1..])
  }

  /** The schema that a path of property names leads to. */
  ghost predicate Governs(schema: Schema, path: seq<string>)
    decreases |path|
  {
    path == [] || (path[0] in PropertySchemas(schema) && Governs(PropertySchemas(schema)[path[0]], path[1..]))
  }

  ghost function SchemaAt(schema: Schema, path: seq<string>): Schema
    requires Governs(schema, path)
    decreases |path|
  {
    if path == [] then schema else SchemaAt(PropertySchemas(schema)[path[0]], path[1..])
  }

  /** Every value reached by at most depth property names meets the schema reached by
      the same names. */
  ghost predicate Conforms(value: Json, schema: Schema, depth: int) {
    forall path: seq<string> :: |path| <= depth && Leads(value, path) && Governs(schema, path) ==>
      Meets(At(value, path), SchemaAt(schema, path))
  }

  lemma ConformsHere(value: Json, schema: Schema, depth: nat)
    requires Conforms(value, schema, depth)
    ensures Meets(value, schema)
  {
    var path: seq<string> := [];
    assert Leads(value, path) && Governs(schema, path);
    assert At(value, path) == value && SchemaAt(schema, path) == schema;
  }

  lemma {:induction false} PathUnder(value: Json, schema: Schema, key: string, path: seq<string>)
    requires value.Obj? && key in value.fields && key in PropertySchemas(schema)
    requires Leads(value.fields[key], path) && Governs(PropertySchemas(schema)[key], path)
    ensures Leads(value, [key] + path) && Governs(schema, [key] + path)
    ensures At(value, [key] + path) == At(value.fields[key], path)
    ensures SchemaAt(schema, [key] + path) == SchemaAt(PropertySchemas(schema)[key], path)
  {
    assert ([key] + path)[1..] == path;
  }

  lemma ConformsBelow(value: Json, schema: Schema, depth: nat, key: string)
    requires Conforms(value, schema, depth)
    requires value.Obj? && key in value.fields && key in PropertySchemas(schema)
    ensures Conforms(value.fields[key], PropertySchemas(schema)[key], depth - 1)
  {
    forall path: seq<string> | |path| <= depth - 1 && Leads(value.fields[key], path)
      && Governs(PropertySchemas(schema)[key], path)
      ensures Meets(At(value.fields[key], path), SchemaAt(PropertySchemas(schema)[key], path))
    {
      PathUnder(value, schema, key, path);
    }
  }

  ghost predicate Below(value: Json, schema: Schema, depth: int, key: string) {
    value.Obj? && key in value.fields && key in PropertySchemas(schema)
    ==> Conforms(value.fields[key], PropertySchemas(schema)[key], depth - 1)
  }

  /** Conformance level by level. */
  lemma ConformsIff(value: Json, schema: Schema, depth: nat)
    ensures Conforms(value, schema, depth) <==>
            Meets(value, schema) && forall key :: key in PropertySchemas(schema) ==> Below(value, schema, depth, key)
  {
    if Conforms(value, schema, depth) {
      ConformsHere(value, schema, depth);
      forall key | key in PropertySchemas(schema) ensures Below(value, schema, depth, key) {
        if value.Obj? && key in value.fields {
          ConformsBelow(value, schema, depth, key);
        }
      }
    } else {
      var path: seq<string> :| |path| <= depth && Leads(value, path) && Governs(schema, path)
                               && !Meets(At(value, path), SchemaAt(schema, path));
      if path != [] {
        assert !Conforms(value.fields[path[0]], PropertySchemas(schema)[path[0]], depth - 1) by {
          assert |path[1..]| <= depth - 1;
        }
        assert !Below(value, schema, depth, path[0]);
      }
    }
  }

  // ---- The keywords, as they stand in the schema ----

  /** t is one of the types the schema names, as a word or in a list. */
  ghost predicate NamesType(schema: Schema, t: string) {
    "type" in schema &&
    match schema["type"]
    case Str(s) => t == TrimSpace(s) != ""
    case Arr(items) => Lists(items, t)
    case _ => false
  }

  ghost predicate Lists(items: seq<Json>, t: string) {
    exists i :: 0 <= i < |items| && items[i].Str? && t == TrimSpace(items[i].s) != ""
  }

  ghost predicate Demands(schema: Schema, key: string) {
    "required" in schema && schema["required"].Arr? && Lists(schema["required"].items, key)
  }

  ghost predicate Declares(schema: Schema, key: string, sub: Schema) {
    "properties" in schema && schema["properties"].Obj? && key in schema["properties"].fields
    && schema["properties"].fields[key] == Obj(sub)
  }

  /** The value is of type t; of an unknown type everything is. */
  ghost predicate IsA(value: Json, t: string) {
    && (t == "object" ==> value.Obj?) && (t == "array" ==> value.Arr?) && (t == "string" ==> value.Str?)
    && (t == "number" ==> value.Number?) && (t == "boolean" ==> value.Bool?) && (t == "null" ==> value.Null?)
    && (t == "integer" ==> value.Number? && exists i :: IsInt64(value.n, i))
  }

  predicate IsInt64(n: real, i: int) {
    n == i as real && -0x8000_0000_0000_0000 <= i < 0x8000_0000_0000_0000
  }

  lemma IsAIff(value: Json, t: string)
    ensures HasType(value, t) <==> IsA(value, t)
  {
    if value.Number? && IsWhole(value.n) {
      assert IsInt64(value.n, value.n.Floor);
    }
  }

  lemma {:induction false} ListedIff(items: seq<Json>, t: string)
    ensures t in TrimmedStrings(items) <==> Lists(items, t)
  {
    hide TrimSpace;
    if items == [] {
    } else {
      var n := |items| - 1;
      ListedIff(items[..n], t);
      assert Lists(items, t) <==> Lists(items[..n], t) || (items[n].Str? && t == TrimSpace(items[n].s) != "");
    }
  }

  lemma TypesIff(schema: Schema, t: string)
    ensures t in Types(schema) <==> NamesType(schema, t)
  {
    hide TrimSpace, TrimmedStrings, Lists;
    if "type" in schema && schema["type"].Arr? {
      ListedIff(schema["type"].items, t);
    }
  }

  lemma TypeOkIff(value: Json, schema: Schema)
    ensures TypeOk(value, schema) <==>
      (exists t :: NamesType(schema, t)) ==> exists t :: NamesType(schema, t) && IsA(value, t)
  {
    hide HasType, IsA, Types, NamesType;
    forall t ensures (t in Types(schema) <==> NamesType(schema, t)) && (HasType(value, t) <==> IsA(value, t)) {
      TypesIff(schema, t);
      IsAIff(value, t);
    }
    if Types(schema) != [] {
      assert Types(schema)[0] in Types(schema);
    }
  }

  lemma RequiredIff(schema: Schema, key: string)
    ensures key in Required(schema) <==> Demands(schema, key)
  {
    hide TrimmedStrings, Lists;
    if "required" in schema && schema["required"].Arr? {
      ListedIff(schema["required"].items, key);
    }
  }

  /** The object has every required key, and with additionalProperties false and some
      property an object no key but such properties. */
  ghost predicate KeysRight(fields: map<string, Json>, schema: Schema) {
    && (forall key :: Demands(schema, key) ==> key in fields)
    && ("additionalProperties" in schema && schema["additionalProperties"] == Bool(false)
        && (exists key, sub :: Declares(schema, key, sub)) ==>
          forall key :: key in fields ==> exists sub :: Declares(schema, key, sub))
  }

  lemma PropertyIff(schema: Schema, key: string)
    ensures key in PropertySchemas(schema) <==> exists sub :: Declares(schema, key, sub)
    ensures forall sub :: Declares(schema, key, sub) ==>
      key in PropertySchemas(schema) && PropertySchemas(schema)[key] == sub
    ensures key in PropertySchemas(schema) ==> Declares(schema, key, PropertySchemas(schema)[key])
  {
    if key in PropertySchemas(schema) {
      assert Declares(schema, key, PropertySchemas(schema)[key]);
    }
  }

  lemma ClosedIff(schema: Schema)
    ensures Closed(schema) <==>
      "additionalProperties" in schema && schema["additionalProperties"] == Bool(false)
      && exists key, sub :: Declares(schema, key, sub)
  {
    hide PropertySchemas, Declares;
    if PropertySchemas(schema) != map[] {
      var key :| key in PropertySchemas(schema);
      PropertyIff(schema, key);
    }
    if key, sub :| Declares(schema, key, sub) {
      PropertyIff(schema, key);
    }
  }

  lemma KeysRightIff(fields: map<string, Json>, schema: Schema)
    ensures KeysRight(fields, schema) <==>
      (forall key :: key in Required(schema) ==> key in fields)
      && (Closed(schema) ==> fields.Keys <= PropertySchemas(schema).Keys)
  {
    hide Required, Demands, Closed, PropertySchemas, Declares;
    ClosedIff(schema);
    forall key
      ensures key in Required(schema) <==> Demands(schema, key)
      ensures key in PropertySchemas(schema) <==> exists sub :: Declares(schema, key, sub)
    {
      RequiredIff(schema, key);
      PropertyIff(schema, key);
    }
  }

  /** What a schema asks of a value, keyword by keyword, to a depth. */
  lemma SchemaSays(value: Json, schema: Schema, depth: nat)
    ensures Conforms(value, schema, depth) <==>
      && ((exists t :: NamesType(schema, t)) ==> exists t :: NamesType(schema, t) && IsA(value, t))
      && (value.Obj? ==> KeysRight(value.fields, schema))
      && (value.Obj? ==> forall key, sub :: Declares(schema, key, sub) && key in value.fields ==>
            Conforms(value.fields[key], sub, depth - 1))
  {
    hide TypeOk, NamesType, IsA, KeysRight, Required, Closed, PropertySchemas, Declares, Conforms;
    ConformsIff(value, schema, depth);
    TypeOkIff(value, schema);
    if value.Obj? {
      KeysRightIff(value.fields, schema);
      PropertiesIff(value, schema, depth);
    }
  }

  lemma PropertiesIff(value: Json, schema: Schema, depth: nat)
    requires value.Obj?
    ensures (forall key :: key in PropertySchemas(schema) ==> Below(value, schema, depth, key)) <==>
      forall key, sub :: Declares(schema, key, sub) && key in value.fields ==>
        Conforms(value.fields[key], sub, depth - 1)
  {
    hide PropertySchemas, Declares, Conforms;
    forall key
      ensures key in PropertySchemas(schema) ==> Declares(schema, key, PropertySchemas(schema)[key])
      ensures forall sub :: Declares(schema, key, sub) ==>
        key in PropertySchemas(schema) && PropertySchemas(schema)[key] == sub
    {
      PropertyIff(schema, key);
    }
    if forall key, sub :: Declares(schema, key, sub) && key in value.fields ==>
        Conforms(value.fields[key], sub, depth - 1)
    {
      forall key | key in PropertySchemas(schema) ensures Below(value, schema, depth, key) {
        assert Declares(schema, key, PropertySchemas(schema)[key]);
      }
    }
    if forall key :: key in PropertySchemas(schema) ==> Below(value, schema, depth, key) {
      forall key, sub | Declares(schema, key, sub) && key in value.fields
        ensures Conforms(value.fields[key], sub, depth - 1)
      {
        assert Below(value, schema, depth, key);
      }
    }
  }

  // ---- Against the JSON Schema reading ----

  /** What the code asks of an object's keys. */
  ghost predicate KeysPass(fields: map<string, Json>, schema: Schema) {
    Closed(schema) ==> fields.Keys <= PropertySchemas(schema).Keys
  }

  /** What JSON Schema asks of them: every property counts as declared, whatever its
      schema, a property with the schema false may not be there, and additionalProperties
      false admits no others. */
  ghost predicate KeysConform(fields: map<string, Json>, schema: Schema) {
    && (forall key :: key in Properties(schema) && Properties(schema)[key] == Bool(false) ==> key !in fields)
    && (Shut(schema) ==> fields.Keys <= Properties(schema).Keys)
  }

  /** The schemas on which the two agree: with additionalProperties false some property
      has an object as schema and every other the schema false; without it no property has
      the schema false. */
  predicate Agreeable(schema: Schema) {
    var properties := Properties(schema);
    if Shut(schema) then
      PropertySchemas(schema) != map[]
      && forall key :: key in properties ==> properties[key].Obj? || properties[key] == Bool(false)
    else forall key :: key in properties ==> properties[key] != Bool(false)
  }

  lemma {:induction false} FreshKey(keys: set<string>) returns (key: string)
    ensures key !in keys && forall other :: other in keys ==> |other| < |key|
  {
    if keys == {} {
      key := "";
    } else {
      var other :| other in keys;
      var longer := FreshKey(keys - {other});
      key := if |longer| > |other| then longer else other + "x";
    }
  }

  /** A schema that is not agreeable has an object on which they differ. */
  lemma {:induction false} Disagreement(schema: Schema) returns (fields: map<string, Json>)
    requires !Agreeable(schema)
    ensures KeysPass(fields, schema) != KeysConform(fields, schema)
  {
    var properties := Properties(schema);
    var key: string;
    if Shut(schema) && PropertySchemas(schema) == map[] {
      key := FreshKey(properties.Keys);
    } else if Shut(schema) {
      key :| key in properties && !properties[key].Obj? && properties[key] != Bool(false);
    } else {
      key :| key in properties && properties[key] == Bool(false);
    }
    fields := map[key := Null];
    assert key in fields.Keys;
  }

  /** The code admits the same keys as JSON Schema, for every object, exactly when the
      schema is agreeable. */
  lemma KeysAgreeIff(schema: Schema)
    ensures (forall fields :: KeysPass(fields, schema) <==> KeysConform(fields, schema)) <==> Agreeable(schema)
  {
    if !Agreeable(schema) {
      var fields := Disagreement(schema);
    } else {
      forall fields
        ensures KeysPass(fields, schema) <==> KeysConform(fields, schema)
      {
        AgreeableKeys(schema, fields);
      }
    }
  }

  lemma AgreeableKeys(schema: Schema, fields: map<string, Json>)
    requires Agreeable(schema)
    ensures KeysPass(fields, schema) <==> KeysConform(fields, schema)
  {
    var properties, schemas := Properties(schema), PropertySchemas(schema);
    assert forall key :: key in schemas <==> key in properties && properties[key].Obj?;
    if Shut(schema) && KeysConform(fields, schema) {
      forall key | key in fields.Keys
        ensures key in schemas.Keys
      {
        assert key in properties;
      }
    }
  }

  // ---- The checks ----

  /** validateJSONSchemaType. */
  method ValidateType(value: Json, schema: Schema) returns (ok: bool)
    ensures ok <==> TypeOk(value, schema)
  {
    var types := Types(schema);
    if types == [] {
      return true;
    }
    for i := 0 to |types|
      invariant forall typ :: typ in types[..i] ==> !HasType(value, typ)
    {
      if HasType(value, types[i]) {
        return true;
      }
    }
    assert types[..|types|] == types;
    ok := false;
  }

  method HasRequired(fields: map<string, Json>, schema: Schema) returns (ok: bool)
    ensures ok <==> forall key :: key in Required(schema) ==> key in fields
  {
    var required := Required(schema);
    for i := 0 to |required|
      invariant forall key :: key in required[..i] ==> key in fields
    {
      if required[i] !in fields {
        return false;
      }
    }
    assert required[..|required|] == required;
    ok := true;
  }

  /** The keys are visited in any order. */
  method OnlyDeclared(fields: map<string, Json>, declared: map<string, Schema>) returns (ok: bool)
    ensures ok <==> fields.Keys <= declared.Keys
  {
    var todo := fields.Keys;
    while todo != {}
      invariant todo <= fields.Keys && fields.Keys - todo <= declared.Keys
      decreases todo
    {
      var key :| key in todo;
      todo := todo - {key};
      if key !in declared {
        return false;
      }
    }
    ok := true;
  }

  /** validateJSONSchemaValue: accepts exactly the values that conform to the levels
      still in reach, whatever order the maps are visited in. */
  method ValidateValue(value: Json, schema: Schema, depth: nat) returns (ok: bool)
    requires depth <= MAX_SCHEMA_DEPTH + 1
    ensures ok <==> Conforms(value, schema, MAX_SCHEMA_DEPTH - depth)
    decreases MAX_SCHEMA_DEPTH + 1 - depth
  {
    if depth > MAX_SCHEMA_DEPTH {
      return true;
    }
    ConformsIff(value, schema, MAX_SCHEMA_DEPTH - depth);
    if |schema| == 0 {
      EmptySchemaAccepts(value, schema);
      return true;
    }
    ok := ValidateType(value, schema);
    if !ok || !value.Obj? {
      return;
    }
    ok := HasRequired(value.fields, schema);
    if !ok {
      return;
    }
    var propertySchemas := PropertySchemas(schema);
    if "additionalProperties" in schema && schema["additionalProperties"] == Bool(false) && |propertySchemas| > 0 {
      ok := OnlyDeclared(value.fields, propertySchemas);
      if !ok {
        assert Closed(schema);
        return;
      }
    }
    assert Meets(value, schema);
    ok := ValidateProperties(value, schema, depth);
  }

  lemma EmptySchemaAccepts(value: Json, schema: Schema)
    requires |schema| == 0
    ensures Meets(value, schema) && PropertySchemas(schema) == map[]
  {
    assert schema == map[];
  }

  method ValidateProperties(value: Json, schema: Schema, depth: nat) returns (ok: bool)
    requires depth <= MAX_SCHEMA_DEPTH && value.Obj?
    ensures ok <==> forall key :: key in PropertySchemas(schema) ==> Below(value, schema, MAX_SCHEMA_DEPTH - depth, key)
    decreases MAX_SCHEMA_DEPTH + 1 - depth, 0
  {
    hide PropertySchemas, Conforms;
    var propertySchemas := PropertySchemas(schema);
    var todo := propertySchemas.Keys;
    while todo != {}
      invariant todo <= propertySchemas.Keys
      invariant forall key :: key in propertySchemas && key !in todo ==>
        Below(value, schema, MAX_SCHEMA_DEPTH - depth, key)
      decreases todo
    {
      var key :| key in todo;
      todo := todo - {key};
      if key in value.fields {
        ok := ValidateValue(value.fields[key], propertySchemas[key], depth + 1);
        assert MAX_SCHEMA_DEPTH - (depth + 1) == MAX_SCHEMA_DEPTH - depth - 1;
        assert ok <==> Below(value, schema, MAX_SCHEMA_DEPTH - depth, key);
        if !ok {
          assert !Below(value, schema, MAX_SCHEMA_DEPTH - depth, key);
          return;
        }
      }
    }
    ok := true;
  }
}
