/** JSON schemas generated from Go types (llms/schema.go), against the values those types encode to. */
module Schema {
  import opened Values
  import opened Validation

  datatype Field = Field(name: string, tag: string, required: bool, typ: GoType)

  /** What reflection shows of a type. Maps, interfaces and functions are `OtherT`. */
  datatype GoType =
    | StringT
    | NumberT
    | BoolT
    | SliceT(elem: GoType)
    | StructT(fields: seq<Field>)
    | PtrT(elem: GoType)
    | OtherT

  datatype GoValue =
    | StringV(s: string)
    | NumberV(bits: nat)
    | BoolV(b: bool)
    | SliceV(items: seq<GoValue>)
    | NilSlice
    | StructV(values: seq<GoValue>)
    | PtrV(target: GoValue)
    | NilPtr

  /* ---------- The generator ---------- */

  predicate InSchema(f: Field) {
    f.tag != "-" && f.tag != ""
  }

  function TypeOnly(kind: string): Object {
    map["type" := Str(kind)]
  }

  function PropertySchema(t: GoType): Object
    decreases t, 0
  {
    match t
    case StringT => TypeOnly("string")
    case NumberT => TypeOnly("number")
    case BoolT => TypeOnly("boolean")
    case SliceT(elem) => map["type" := Str("array"), "items" := Map(PropertySchema(elem))]
    case StructT(fields) => StructSchema(fields)
    case PtrT(elem) => PropertySchema(elem)
    case OtherT => TypeOnly("object")
  }

  function FieldSchemas(fields: seq<Field>): Object
    decreases fields, 0
  {
    if fields == [] then map[]
    else
      var f := fields[|fields| - 1];
      var before := FieldSchemas(fields[..|fields| - 1]);
      if InSchema(f) then before[f.tag := Map(PropertySchema(f.typ))] else before
  }

  function RequiredTags(fields: seq<Field>): seq<string> {
    if fields == [] then []
    else
      var f := fields[|fields| - 1];
      RequiredTags(fields[..|fields| - 1]) + if InSchema(f) && f.required then [f.tag] else []
  }

  function StructSchema(fields: seq<Field>): Object
    decreases fields, 1
  {
    var schema: Object := map["type" := Str("object"), "properties" := Map(FieldSchemas(fields))];
    var required := RequiredTags(fields);
    if required == [] then schema else schema["required" := Strings(required)]
  }

  method GeneratePropertySchema(t: GoType) returns (schema: Object)
    ensures schema == PropertySchema(t)
    decreases t, 0
  {
    match t {
      case StringT => return map["type" := Str("string")];
      case NumberT => return map["type" := Str("number")];
      case BoolT => return map["type" := Str("boolean")];
      case SliceT(elem) =>
        var items := GeneratePropertySchema(elem);
        return map["type" := Str("array"), "items" := Map(items)];
      case StructT(fields) =>
        schema := GenerateStructSchema(fields);
      case PtrT(elem) =>
        schema := GeneratePropertySchema(elem);
      case OtherT => return map["type" := Str("object")];
    }
  }

  method GenerateStructSchema(fields: seq<Field>) returns (schema: Object)
    ensures schema == StructSchema(fields)
    decreases fields, 1
  {
    var properties: Object := map[];
    var required: seq<string> := [];
    for i := 0 to |fields|
      invariant properties == FieldSchemas(fields[..i])
      invariant required == RequiredTags(fields[..i])
    {
      var field := fields[i];
      assert fields[..i + 1][..i] == fields[..i];
      if field.tag == "-" || field.tag == "" {
        continue;
      }
      var property := GeneratePropertySchema(field.typ);
      properties := properties[field.tag := Map(property)];
      if field.required {
        required := required + [field.tag];
      }
    }
    assert fields[..|fields|] == fields;
    schema := map["type" := Str("object"), "properties" := Map(properties)];
    if |required| > 0 {
      schema := schema["required" := Strings(required)];
    }
  }

  /** The parameters of a tool: nothing, a ready schema, or a struct (or a pointer to one). */
  datatype Parameters = NoParameters | ReadySchema(schema: Object) | GoTyped(typ: GoType)

  function EmptySchema(): Object {
    map["type" := Str("object"), "properties" := Map(map[])]
  }

  function GenerateParametersSchema(p: Parameters): Object {
    match p
    case NoParameters => EmptySchema()
    case ReadySchema(schema) => schema
    case GoTyped(StructT(fields)) => StructSchema(fields)
    case GoTyped(PtrT(StructT(fields))) => StructSchema(fields)
    case GoTyped(_) => EmptySchema()
  }

  /** A ready schema is taken as it is, a struct or a pointer to one gives the schema of its fields, and anything
      else asks for nothing. */
  lemma {:induction false} ParametersAsk(p: Parameters)
    ensures
      var schema := GenerateParametersSchema(p);
      match p
      case ReadySchema(ready) => schema == ready
      case GoTyped(StructT(fields)) => schema == StructSchema(fields)
      case GoTyped(PtrT(StructT(fields))) => schema == StructSchema(fields)
      case _ => forall args :: SchemaAccepts(Some(schema), args)
  {
    hide StructSchema;
  }

  /* ---------- What the types encode to ---------- */

  predicate HasType(v: GoValue, t: GoType)
    decreases t
  {
    match t
    case StringT => v.StringV?
    case NumberT => v.NumberV? && IsFinite(v.bits)
    case BoolT => v.BoolV?
    case SliceT(elem) => v == NilSlice || (v.SliceV? && forall x | x in v.items :: HasType(x, elem))
    case StructT(fields) => v.StructV? && HasTypes(v.values, fields)
    case PtrT(elem) => v == NilPtr || (v.PtrV? && HasType(v.target, elem))
    case OtherT => false
  }

  predicate HasTypes(values: seq<GoValue>, fields: seq<Field>)
    decreases fields
  {
    |values| == |fields| && forall i | 0 <= i < |fields| :: HasType(values[i], fields[i].typ)
  }

  /** The name in a tag, which ends at the first comma; options follow. */
  function TagName(tag: string): (name: string)
    ensures ',' !in name && (',' !in tag ==> name == tag)
  {
    if tag == "" || tag[0] == ',' then "" else [tag[0]] + TagName(tag[1..])
  }

  predicate HasOption(tag: string, option: string) {
    exists i | 0 <= i < |tag| && tag[i] == ',' :: tag[i + 1..] == option || option + "," <= tag[i + 1..]
  }

  /** The name a field is encoded under: that in its tag, or its own name when there is none. */
  function EncodedName(f: Field): string {
    if TagName(f.tag) == "" then f.name else TagName(f.tag)
  }

  /** A field that the schema describes under the name it is encoded under. */
  predicate Matched(f: Field) {
    InSchema(f) && ',' !in f.tag
  }

  predicate DistinctFields(fields: seq<Field>) {
    && (forall i | 0 <= i < |fields| :: ',' !in fields[i].name)
    && (forall i, j | 0 <= i < j < |fields| && fields[i].tag != "-" && fields[j].tag != "-" ::
          EncodedName(fields[i]) != EncodedName(fields[j]))
  }

  /** No two fields of a struct are encoded under one name, at any depth. */
  predicate DistinctNames(t: GoType) {
    match t
    case SliceT(elem) => DistinctNames(elem)
    case PtrT(elem) => DistinctNames(elem)
    case StructT(fields) => DistinctFields(fields) && forall i | 0 <= i < |fields| :: DistinctNames(fields[i].typ)
    case _ => true
  }

  predicate IsEmpty(v: GoValue) {
    match v
    case StringV(s) => s == ""
    case NumberV(bits) => bits % 0x8000_0000_0000_0000 == 0
    case BoolV(b) => !b
    case SliceV(items) => items == []
    case NilSlice => true
    case NilPtr => true
    case _ => false
  }

  /** The values that the option `string` concerns. */
  predicate IsScalar(v: GoValue) {
    v.StringV? || v.NumberV? || v.BoolV?
  }

  /** What the encoding of a Go value is decoded to: nil slices and nil pointers become null. */
  function Encode(json: Json, t: GoType, v: GoValue): Any
    requires HasType(v, t)
    decreases t, 0
  {
    match v
    case StringV(s) => Str(s)
    case NumberV(bits) => Float64(bits)
    case BoolV(b) => Bool(b)
    case SliceV(items) => List(seq(|items|, i requires 0 <= i < |items| => Encode(json, t.elem, items[i])))
    case StructV(values) => Map(EncodeFields(json, t.fields, values))
    case PtrV(target) => Encode(json, t.elem, target)
    case _ => Nil
  }

  /** The members of a struct: `omitempty` leaves out empty values, `string` puts the text of a value into a
      string. */
  function EncodeFields(json: Json, fields: seq<Field>, values: seq<GoValue>): Object
    requires HasTypes(values, fields)
    decreases fields, 0
  {
    if fields == [] then map[]
    else
      var n := |fields| - 1;
      var f, v, before := fields[n], values[n], EncodeFields(json, fields[..n], values[..n]);
      if f.tag == "-" || (HasOption(f.tag, "omitempty") && IsEmpty(v)) then before
      else
        var encoded := Encode(json, f.typ, v);
        var quoted := HasOption(f.tag, "string") && (IsScalar(v) || (v.PtrV? && IsScalar(v.target)));
        before[EncodedName(f) := if quoted then Str(json.print_(encoded)) else encoded]
  }

  /* ---------- Generator and validator agree ---------- */

  lemma {:induction false} FieldSchemaAt(fields: seq<Field>)
    requires DistinctFields(fields)
    ensures forall i | 0 <= i < |fields| && Matched(fields[i]) ::
      fields[i].tag in FieldSchemas(fields) && FieldSchemas(fields)[fields[i].tag] == Map(PropertySchema(fields[i].typ))
    ensures forall k | k in FieldSchemas(fields) ::
      exists i | 0 <= i < |fields| :: InSchema(fields[i]) && fields[i].tag == k
  {
    if fields != [] {
      var n := |fields| - 1;
      var init := fields[..n];
      FieldSchemaAt(init);
      forall k | k in FieldSchemas(fields)
        ensures exists i | 0 <= i < |fields| :: InSchema(fields[i]) && fields[i].tag == k
      {
        if k in FieldSchemas(init) {
          var i :| 0 <= i < n && InSchema(init[i]) && init[i].tag == k;
          assert fields[i] == init[i];
        }
      }
      forall i | 0 <= i < |fields| && Matched(fields[i])
        ensures fields[i].tag in FieldSchemas(fields) &&
          FieldSchemas(fields)[fields[i].tag] == Map(PropertySchema(fields[i].typ))
      {
        assert i < n ==> init[i] == fields[i];
      }
    }
  }

  lemma NoOptions(tag: string, option: string)
    requires ',' !in tag
    ensures !HasOption(tag, option)
  {
  }

  /** A matched field is encoded under its tag; no member has a comma in its name. */
  lemma {:induction false} EncodedAt(json: Json, fields: seq<Field>, values: seq<GoValue>)
    requires DistinctFields(fields) && HasTypes(values, fields)
    ensures
      var o := EncodeFields(json, fields, values);
      && (forall i | 0 <= i < |fields| && Matched(fields[i]) ::
            fields[i].tag in o && o[fields[i].tag] == Encode(json, fields[i].typ, values[i]))
      && forall k | k in o :: ',' !in k
  {
    hide HasOption, Encode;
    if fields != [] {
      var n := |fields| - 1;
      var init, o := fields[..n], EncodeFields(json, fields, values);
      EncodedAt(json, init, values[..n]);
      forall i | 0 <= i < |fields| && Matched(fields[i])
        ensures fields[i].tag in o && o[fields[i].tag] == Encode(json, fields[i].typ, values[i])
      {
        assert i < n ==> init[i] == fields[i] && values[..n][i] == values[i];
        NoOptions(fields[i].tag, "omitempty");
        NoOptions(fields[i].tag, "string");
        assert EncodedName(fields[i]) == fields[i].tag;
      }
    }
  }

  predicate NilAtTop(v: GoValue) {
    match v
    case NilSlice => true
    case NilPtr => true
    case PtrV(target) => NilAtTop(target)
    case _ => false
  }

  lemma {:induction false} KindAgrees(json: Json, t: GoType, v: GoValue)
    requires HasType(v, t)
    ensures Fits(KindOf(Map(PropertySchema(t))), Encode(json, t, v)) <==> !NilAtTop(v)
    decreases t
  {
    if v.PtrV? {
      KindAgrees(json, t.elem, v.target);
    } else if v == NilPtr {
      KindIsKnown(t);
    }
  }

  lemma {:induction false} KindIsKnown(t: GoType)
    ensures KindOf(Map(PropertySchema(t))) in KINDS
    decreases t
  {
    match t {
      case PtrT(elem) => KindIsKnown(elem);
      case StructT(fields) => assert StructSchema(fields)["type"] == Str("object");
      case _ => assert PropertySchema(t)["type"].s in KINDS;
    }
  }

  /** The validator accepts what a struct type encodes to exactly when no tagged field is nil. A field whose tag
      has options may be: the schema knows it by the whole tag, under which nothing is encoded. */
  lemma {:induction false} EncodedIsAccepted(json: Json, fields: seq<Field>, values: seq<GoValue>)
    requires DistinctFields(fields) && HasTypes(values, fields)
    ensures SchemaAccepts(Some(StructSchema(fields)), Some(EncodeFields(json, fields, values))) <==>
      forall i | 0 <= i < |fields| && Matched(fields[i]) :: !NilAtTop(values[i])
  {
    hide FieldSchemas, EncodeFields, StructSchema, PropertySchema, Fits, NilAtTop, KindOf, Encode;
    FieldSchemaAt(fields);
    EncodedAt(json, fields, values);
    StructSchemaParts(fields);
    var props, args := FieldSchemas(fields), EncodeFields(json, fields, values);
    forall i | 0 <= i < |fields| && Matched(fields[i])
      ensures PropertyFits(props, fields[i].tag, args) <==> !NilAtTop(values[i])
    {
      KindAgrees(json, fields[i].typ, values[i]);
    }
  }

  lemma StructSchemaParts(fields: seq<Field>)
    ensures
      var s := StructSchema(fields);
      "type" in s && s["type"] == Str("object") && Properties(s) == FieldSchemas(fields) && RequiredNames(s) == {}
  {
  }

  /** Only a field that is matched is described under the name it is encoded under. */
  lemma {:induction false} DescribedIsMatched(fields: seq<Field>, i: nat)
    requires DistinctFields(fields) && i < |fields| && fields[i].tag != "-"
    ensures EncodedName(fields[i]) in FieldSchemas(fields) <==> Matched(fields[i])
  {
    hide FieldSchemas, PropertySchema;
    FieldSchemaAt(fields);
    if EncodedName(fields[i]) in FieldSchemas(fields) {
      var j :| 0 <= j < |fields| && InSchema(fields[j]) && fields[j].tag == EncodedName(fields[i]);
      assert EncodedName(fields[j]) == fields[j].tag;
    }
  }

  /** A value of the form that the values of a type are decoded to, if they are not nil. */
  predicate HasForm(t: GoType, w: Any) {
    match t
    case StringT => w.Str?
    case NumberT => w.Float64? || w.Int?
    case BoolT => w.Bool?
    case SliceT(_) => w.List?
    case StructT(_) => w.Map?
    case PtrT(elem) => HasForm(elem, w)
    case OtherT => w.Map?
  }

  lemma {:induction false} FormIsKind(t: GoType, w: Any)
    ensures Fits(KindOf(Map(PropertySchema(t))), w) <==> HasForm(t, w)
    decreases t
  {
    match t {
      case PtrT(elem) => FormIsKind(elem, w);
      case StructT(fields) => assert StructSchema(fields)["type"] == Str("object");
      case _ =>
    }
  }

  /** Whatever replaces the value of a field, the validator asks exactly for a value of the form of its type if the
      field has a tag without options, and for nothing otherwise. */
  lemma {:induction false} ReplacedFieldIsChecked(json: Json, fields: seq<Field>, values: seq<GoValue>, i: nat, w: Any)
    requires DistinctFields(fields) && HasTypes(values, fields)
    requires forall j | 0 <= j < |fields| && Matched(fields[j]) :: !NilAtTop(values[j])
    requires i < |fields| && fields[i].tag != "-"
    ensures
      var args := EncodeFields(json, fields, values)[EncodedName(fields[i]) := w];
      SchemaAccepts(Some(StructSchema(fields)), Some(args)) <==>
        (Matched(fields[i]) ==> HasForm(fields[i].typ, w))
  {
    hide HasForm, FieldSchemas, EncodeFields, StructSchema, PropertySchema, Fits, NilAtTop, KindOf, EncodedName;
    EncodedIsAccepted(json, fields, values);
    FieldSchemaAt(fields);
    DescribedIsMatched(fields, i);
    StructSchemaParts(fields);
    var props, name, args := FieldSchemas(fields), EncodedName(fields[i]), EncodeFields(json, fields, values);
    var args' := args[name := w];
    forall k | k in props && k != name ensures PropertyFits(props, k, args') {
      assert PropertyFits(props, k, args);
    }
    if Matched(fields[i]) {
      MatchedName(fields[i]);
      FormIsKind(fields[i].typ, w);
      assert PropertyFits(props, name, args') <==> Fits(KindOf(Map(PropertySchema(fields[i].typ))), w);
    }
  }

  lemma MatchedName(f: Field)
    requires Matched(f)
    ensures EncodedName(f) == f.tag
  {
  }

  lemma {:induction false} NameBeforeOptions(name: string, options: string)
    requires ',' !in name
    ensures TagName(name + "," + options) == name
  {
    if name != "" {
      NameBeforeOptions(name[1..], options);
      assert (name + "," + options)[1..] == name[1..] + "," + options;
    }
  }

  /** For instance: with an option in its tag, such as `a,omitempty`, a required argument can have any value for the
      validator, and no value for JSON Schema. */
  lemma {:induction false} OptionHidesField(f: Field, name: string, options: string, w: Any)
    requires f.tag == name + "," + options && name != "" && ',' !in name && f.required
    ensures EncodedName(f) == name
    ensures SchemaAccepts(Some(StructSchema([f])), Some(map[name := w]))
    ensures !Conforms(Map(StructSchema([f])), Map(map[name := w]))
  {
    hide Conforms, StructSchema, PropertySchema;
    NameBeforeOptions(name, options);
    assert f.tag[|name|] == ',' && f.tag != name;
    OneField(f);
    StructSchemaParts([f]);
    ObjectConforms([f], map[name := w]);
    assert f.tag in RequiredTags([f]);
  }

  lemma OneField(f: Field)
    requires InSchema(f) && f.required
    ensures FieldSchemas([f]) == map[f.tag := Map(PropertySchema(f.typ))] && RequiredTags([f]) == [f.tag]
  {
    hide PropertySchema;
    assert [f][..0] == [];
  }

  /** The generator writes `required` as a list of strings, which the validator does not read: leaving an
      argument out is never an error, required or not. */
  lemma RequiredIsNotEnforced(fields: seq<Field>, args: Object, k: string)
    requires SchemaAccepts(Some(StructSchema(fields)), Some(args))
    ensures SchemaAccepts(Some(StructSchema(fields)), Some(args - {k}))
  {
    StructSchemaParts(fields);
    var props := FieldSchemas(fields);
    forall p | p in props ensures PropertyFits(props, p, args - {k}) {
      assert PropertyFits(props, p, args);
    }
  }

  /** For instance: a required path is left out; JSON Schema would say no, the validator says yes. */
  lemma {:induction false} MissingPathIsAccepted()
    ensures
      var fields := [Field("Path", "path", true, StringT)];
      && RequiredTags(fields) == ["path"]
      && SchemaAccepts(Some(StructSchema(fields)), Some(map[]))
      && !Conforms(Map(StructSchema(fields)), Map(map[]))
  {
    var fields := [Field("Path", "path", true, StringT)];
    assert fields[..0] == [] && RequiredTags(fields[..0]) == [];
    assert RequiredTags(fields) == ["path"];
    StructSchemaParts(fields);
    assert StructSchema(fields)["required"].names == ["path"] && "path" in ["path"];
  }

  /* ---------- Full JSON Schema ---------- */

  /** The meaning of `type`, `items`, `properties` and `required`
      (section 6 of JSON Schema Validation 2020-12 for `type` and `required`). */
  predicate Conforms(schema: Any, v: Any)
    decreases schema
  {
    schema.Map? ==>
      var o := schema.entries;
      && Fits(KindOf(schema), v)
      && ("items" in o && v.List? ==> forall x | x in v.items :: Conforms(o["items"], x))
      && ("properties" in o && o["properties"].Map? && v.Map? ==>
            forall k | k in o["properties"].entries && k in v.entries ::
              Conforms(o["properties"].entries[k], v.entries[k]))
      && ("required" in o && o["required"].Strings? && v.Map? ==> forall r | r in o["required"].names :: r in v.entries)
  }

  /** No nil slice and no nil pointer anywhere the schema looks, and nothing required under a tag with options. */
  predicate Filled(t: GoType, v: GoValue)
    requires HasType(v, t)
    decreases t
  {
    match v
    case NilSlice => false
    case NilPtr => false
    case SliceV(items) => forall x | x in items :: Filled(t.elem, x)
    case PtrV(target) => Filled(t.elem, target)
    case StructV(values) =>
      assert HasTypes(values, t.fields);
      forall i | 0 <= i < |t.fields| && InSchema(t.fields[i]) ::
        if Matched(t.fields[i]) then Filled(t.fields[i].typ, values[i]) else !t.fields[i].required
    case _ => true
  }

  /** At every depth: an encoded value conforms to the schema generated from its type exactly when
      nothing in it that the schema describes is nil, and nothing is required under a tag with options. */
  lemma {:induction false} EncodedConforms(json: Json, t: GoType, v: GoValue)
    requires HasType(v, t) && DistinctNames(t)
    ensures Conforms(Map(PropertySchema(t)), Encode(json, t, v)) <==> Filled(t, v)
    decreases t, 0
  {
    match v {
      case SliceV(items) => ItemsConform(json, t.elem, items);
      case PtrV(target) => EncodedConforms(json, t.elem, target);
      case StructV(values) => StructConforms(json, t.fields, values);
      case _ => KindAgrees(json, t, v);
    }
  }

  lemma {:induction false} ItemsConform(json: Json, elem: GoType, items: seq<GoValue>)
    requires HasType(SliceV(items), SliceT(elem)) && DistinctNames(elem)
    ensures
      var encoded, schema := Encode(json, SliceT(elem), SliceV(items)).items, Map(PropertySchema(elem));
      (forall x | x in encoded :: Conforms(schema, x)) <==> forall x | x in items :: Filled(elem, x)
    decreases elem, 1
  {
    hide Conforms, Filled, PropertySchema;
    var encoded, schema := Encode(json, SliceT(elem), SliceV(items)).items, Map(PropertySchema(elem));
    forall i | 0 <= i < |items| ensures Conforms(schema, encoded[i]) <==> Filled(elem, items[i]) {
      EncodedConforms(json, elem, items[i]);
    }
    if forall x | x in encoded :: Conforms(schema, x) {
      forall x | x in items ensures Filled(elem, x) {
        var i :| 0 <= i < |items| && items[i] == x;
        assert encoded[i] in encoded;
      }
    }
    if forall x | x in items :: Filled(elem, x) {
      forall x | x in encoded ensures Conforms(schema, x) {
        var i :| 0 <= i < |encoded| && encoded[i] == x;
        assert items[i] in items;
      }
    }
  }

  lemma {:induction false} StructConforms(json: Json, fields: seq<Field>, values: seq<GoValue>)
    requires HasTypes(values, fields) && DistinctNames(StructT(fields))
    ensures Conforms(Map(StructSchema(fields)), Map(EncodeFields(json, fields, values))) <==>
      Filled(StructT(fields), StructV(values))
    decreases fields, 1
  {
    hide Conforms, EncodeFields, FieldSchemas, StructSchema, RequiredTags;
    EncodedAt(json, fields, values);
    ObjectConforms(fields, EncodeFields(json, fields, values));
    PropertiesConform(json, fields, values);
    RequiredAreGiven(fields, EncodeFields(json, fields, values));
  }

  lemma {:induction false} PropertiesConform(json: Json, fields: seq<Field>, values: seq<GoValue>)
    requires HasTypes(values, fields) && DistinctNames(StructT(fields))
    ensures
      var props, args := FieldSchemas(fields), EncodeFields(json, fields, values);
      (forall k | k in props && k in args :: Conforms(props[k], args[k])) <==>
      forall i | 0 <= i < |fields| && Matched(fields[i]) :: Filled(fields[i].typ, values[i])
    decreases fields, 0
  {
    hide Conforms, EncodeFields, FieldSchemas, StructSchema, Encode, PropertySchema, Filled;
    FieldSchemaAt(fields);
    EncodedAt(json, fields, values);
    var props, args := FieldSchemas(fields), EncodeFields(json, fields, values);
    forall i | 0 <= i < |fields| && Matched(fields[i])
      ensures Conforms(props[fields[i].tag], args[fields[i].tag]) <==> Filled(fields[i].typ, values[i])
    {
      EncodedConforms(json, fields[i].typ, values[i]);
    }
    forall k | k in props && k in args
      ensures exists i | 0 <= i < |fields| :: Matched(fields[i]) && fields[i].tag == k
    {
      var i :| 0 <= i < |fields| && InSchema(fields[i]) && fields[i].tag == k;
    }
  }

  lemma {:induction false} RequiredAreGiven(fields: seq<Field>, args: Object)
    requires forall i | 0 <= i < |fields| && Matched(fields[i]) :: fields[i].tag in args
    requires forall k | k in args :: ',' !in k
    ensures (forall r | r in RequiredTags(fields) :: r in args) <==>
      forall i | 0 <= i < |fields| && InSchema(fields[i]) :: !Matched(fields[i]) ==> !fields[i].required
  {
    hide RequiredTags;
    RequiredAreTags(fields);
  }

  /** What the schema of a struct asks of an object. */
  lemma {:induction false} ObjectConforms(fields: seq<Field>, args: Object)
    ensures Conforms(Map(StructSchema(fields)), Map(args)) <==>
      && (forall k | k in FieldSchemas(fields) && k in args :: Conforms(FieldSchemas(fields)[k], args[k]))
      && (forall r | r in RequiredTags(fields) :: r in args)
  {
    hide FieldSchemas, RequiredTags;
    assert RequiredTags(fields) == [] || "required" in StructSchema(fields);
  }

  lemma {:induction false} RequiredAreTags(fields: seq<Field>)
    ensures forall r :: r in RequiredTags(fields) <==>
      exists i | 0 <= i < |fields| :: InSchema(fields[i]) && fields[i].required && fields[i].tag == r
  {
    if fields != [] {
      var init := fields[..|fields| - 1];
      RequiredAreTags(init);
      assert forall i | 0 <= i < |init| :: init[i] == fields[i];
    }
  }
}
