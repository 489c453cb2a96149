/** Argument validation (tools/validation.go): validators that can be chained, and the schema walk. */
module Validation {
  import opened Values

  const KINDS := ["string", "number", "boolean", "array", "object"]

  /** Whether a value has the kind that a schema names; other names ask for nothing. */
  predicate Fits(kind: string, v: Any) {
    if kind == "string" then v.Str?
    else if kind == "number" then v.Float64? || v.Int?
    else if kind == "boolean" then v.Bool?
    else if kind == "array" then v.List?
    else if kind == "object" then v.Map?
    else true
  }

  /* ---------- Validators ---------- */

  datatype Check = Pass | Reject | Panic

  datatype Validator = RequiredKeys(keys: seq<string>) | TypeOf(key: string, kind: string)

  predicate GivenAndNotEmpty(key: string, args: Object) {
    key in args && args[key] != Str("")
  }

  /** ValidateType. The branch for arrays asks a nil interface for its kind before it reports. */
  function CheckType(key: string, kind: string, args: Object): Check {
    if key !in args then Pass
    else if kind !in KINDS then Reject
    else if Fits(kind, args[key]) then Pass
    else if kind == "array" && args[key] == Nil then Panic
    else Reject
  }

  function Apply(v: Validator, args: Object): Check {
    match v
    case RequiredKeys(keys) => if forall k | k in keys :: GivenAndNotEmpty(k, args) then Pass else Reject
    case TypeOf(key, kind) => CheckType(key, kind, args)
  }

  /** What lets arguments past one validator: given and not empty; or not given, or of the kind that is named. */
  lemma {:induction false} ApplyPasses(v: Validator, args: Object)
    ensures Apply(v, args) == Pass <==>
      match v
      case RequiredKeys(keys) => forall k | k in keys :: k in args && args[k] != Str("")
      case TypeOf(key, kind) =>
        key in args ==>
          || (kind == "string" && args[key].Str?)
          || (kind == "number" && (args[key].Float64? || args[key].Int?))
          || (kind == "boolean" && args[key].Bool?)
          || (kind == "array" && args[key].List?)
          || (kind == "object" && args[key].Map?)
  {
  }

  /** ChainValidators: the first validator that does not pass decides. */
  function Chain(vs: seq<Validator>, args: Object): Check {
    if vs == [] then Pass
    else if Apply(vs[0], args) != Pass then Apply(vs[0], args)
    else Chain(vs[1..], args)
  }

  /* ---------- The schema walk ---------- */

  function Given(args: Option<Object>): Object {
    if args == None then map[] else args.value
  }

  function Properties(schema: Object): Object {
    if "properties" in schema && schema["properties"].Map? then schema["properties"].entries else map[]
  }

  /** The names the walk takes for required: it reads a list of `any` and no other list. */
  function RequiredNames(schema: Object): set<string> {
    if "required" in schema && schema["required"].List?
    then set r | r in schema["required"].items && r.Str? :: r.s
    else {}
  }

  function KindOf(property: Any): string {
    if property.Map? && "type" in property.entries && property.entries["type"].Str?
    then property.entries["type"].s else ""
  }

  predicate PropertyFits(props: Object, key: string, args: Object)
    requires key in props
  {
    props[key].Map? && key in args ==> Fits(KindOf(props[key]), args[key])
  }

  /** What ValidateAgainstSchema accepts: all required names are given, all given properties fit. */
  predicate SchemaAccepts(schema: Option<Object>, args: Option<Object>) {
    schema == None
    || !("type" in schema.value && schema.value["type"] == Str("object"))
    || (&& (forall r | r in RequiredNames(schema.value) :: r in Given(args))
        && (forall k | k in Properties(schema.value) :: PropertyFits(Properties(schema.value), k, Given(args))))
  }

  /** A value that has the kind which the schema of a property names, if it names one of the five. */
  predicate HasNamedKind(property: Any, v: Any) {
    property.Map? && "type" in property.entries ==>
      var named := property.entries["type"];
      && (named == Str("string") ==> v.Str?)
      && (named == Str("number") ==> v.Float64? || v.Int?)
      && (named == Str("boolean") ==> v.Bool?)
      && (named == Str("array") ==> v.List?)
      && (named == Str("object") ==> v.Map?)
  }

  /** What the schema of an object asks for: every string in a list of required names is given, and every given
      argument has the kind that its property names. */
  lemma {:induction false} SchemaAcceptsExactly(schema: Object, args: Option<Object>)
    requires "type" in schema && schema["type"] == Str("object")
    ensures SchemaAccepts(Some(schema), args) <==>
      && ("required" in schema && schema["required"].List? ==>
            forall r | Str(r) in schema["required"].items :: args.Some? && r in args.value)
      && ("properties" in schema && schema["properties"].Map? && args.Some? ==>
            forall k | k in schema["properties"].entries && k in args.value ::
              HasNamedKind(schema["properties"].entries[k], args.value[k]))
  {
    hide RequiredNames, PropertyFits, HasNamedKind;
    RequiredNamesExactly(schema);
    var props, given := Properties(schema), Given(args);
    forall k | k in props ensures PropertyFits(props, k, given) <==> (k in given ==> HasNamedKind(props[k], given[k])) {
      PropertyFitsExactly(props, k, given);
    }
  }

  lemma {:induction false} RequiredNamesExactly(schema: Object)
    ensures forall r :: r in RequiredNames(schema) <==>
      "required" in schema && schema["required"].List? && Str(r) in schema["required"].items
  {
  }

  lemma {:induction false} PropertyFitsExactly(props: Object, key: string, args: Object)
    requires key in props
    ensures PropertyFits(props, key, args) <==> (key in args ==> HasNamedKind(props[key], args[key]))
  {
    hide Fits, HasNamedKind;
    if key in args {
      NamedKind(props[key], args[key]);
    }
  }

  lemma {:induction false} NamedKind(property: Any, v: Any)
    ensures (property.Map? ==> Fits(KindOf(property), v)) <==> HasNamedKind(property, v)
  {
  }

  /** Without a schema, or with one that is not for objects, everything is accepted. */
  lemma OtherSchemasAcceptAll(schema: Option<Object>, args: Option<Object>)
    requires schema == None || "type" !in schema.value || schema.value["type"] != Str("object")
    ensures SchemaAccepts(schema, args)
  {
  }

  /** The type switch of the walk. */
  method HasKind(kind: string, v: Any) returns (ok: bool)
    ensures ok <==> Fits(kind, v)
  {
    if kind == "string" {
      return v.Str?;
    } else if kind == "number" {
      match v {
        case Float64(_) => return true;
        case Int(_) => return true;
        case _ => return false;
      }
    } else if kind == "boolean" {
      return v.Bool?;
    } else if kind == "array" {
      return v.List?;
    } else if kind == "object" {
      return v.Map?;
    }
    return true;
  }

  method RequiredOf(schema: Object) returns (required: set<string>)
    ensures required == RequiredNames(schema)
  {
    required := {};
    if "required" in schema && schema["required"].List? {
      var items := schema["required"].items;
      for i := 0 to |items|
        invariant required == set r | r in items[..i] && r.Str? :: r.s
      {
        assert items[..i + 1] == items[..i] + [items[i]];
        if items[i].Str? {
          required := required + {items[i].s};
        }
      }
      assert items[..|items|] == items;
    }
  }

  method AllGiven(required: set<string>, args: Option<Object>) returns (ok: bool)
    ensures ok <==> forall r | r in required :: r in Given(args)
  {
    var todo := required;
    while todo != {}
      invariant todo <= required
      invariant forall r | r in required - todo :: r in Given(args)
    {
      var r :| r in todo;
      if args == None || r !in args.value {
        return false;
      }
      todo := todo - {r};
    }
    return true;
  }

  method AllFit(props: Object, args: Option<Object>) returns (ok: bool)
    ensures ok <==> forall k | k in props :: PropertyFits(props, k, Given(args))
  {
    var todo := props.Keys;
    while todo != {}
      invariant todo <= props.Keys
      invariant forall k | k in props.Keys - todo :: PropertyFits(props, k, Given(args))
    {
      var k :| k in todo;
      todo := todo - {k};
      if !props[k].Map? || args == None || k !in args.value {
        continue;
      }
      var fits := HasKind(KindOf(props[k]), args.value[k]);
      if !fits {
        assert !PropertyFits(props, k, Given(args));
        return false;
      }
    }
    return true;
  }

  /** The walk itself. Both maps are ranged over in an order that Go leaves open; the verdict is the
      same for every order. */
  method ValidateAgainstSchema(schema: Option<Object>, args: Option<Object>) returns (ok: bool)
    ensures ok <==> SchemaAccepts(schema, args)
  {
    if schema == None {
      return true;
    }
    var s := schema.value;
    if !("type" in s && s["type"] == Str("object")) {
      return true;
    }
    var props := Properties(s);
    var required := RequiredOf(s);
    ok := AllGiven(required, args);
    if ok {
      ok := AllFit(props, args);
    }
  }

  /* ---------- The two validators compared ---------- */

  function TypeChecks(props: Object, order: seq<string>): seq<Validator>
    requires forall k | k in order :: k in props
  {
    if order == [] then [] else [TypeOf(order[0], KindOf(props[order[0]]))] + TypeChecks(props, order[1..])
  }

  /** The chain that says the same as a schema: its required names, then one type check a property. */
  function ChainFor(required: seq<string>, props: Object, order: seq<string>): seq<Validator>
    requires forall k | k in order :: k in props
  {
    [RequiredKeys(required)] + TypeChecks(props, order)
  }

  function ObjectSchema(required: seq<string>, props: Object): Object {
    map["type" := Str("object"), "properties" := Map(props),
        "required" := List(seq(|required|, i requires 0 <= i < |required| => Str(required[i])))]
  }

  lemma {:induction false} TypeChecksPass(props: Object, order: seq<string>, args: Object)
    requires forall k | k in order :: k in props && props[k].Map? && KindOf(props[k]) in KINDS
    ensures Chain(TypeChecks(props, order), args) == Pass <==> forall k | k in order :: PropertyFits(props, k, args)
  {
    if order != [] {
      TypeChecksPass(props, order[1..], args);
      assert TypeChecks(props, order)[1..] == TypeChecks(props, order[1..]);
      assert forall k | k in order :: k == order[0] || k in order[1..];
    }
  }

  /** For every order of the type checks, the chain passes exactly when the schema accepts and no
      required argument is the empty string. */
  lemma ChainAgreesWithSchema(required: seq<string>, props: Object, order: seq<string>, args: Object)
    requires forall k | k in order :: k in props
    requires forall k | k in props :: k in order && props[k].Map? && KindOf(props[k]) in KINDS
    ensures Chain(ChainFor(required, props, order), args) == Pass <==>
      && SchemaAccepts(Some(ObjectSchema(required, props)), Some(args))
      && forall r | r in required && r in args :: args[r] != Str("")
  {
    ObjectSchemaAccepts(required, props, args);
    TypeChecksPass(props, order, args);
    assert ChainFor(required, props, order)[1..] == TypeChecks(props, order);
    assert (forall k | k in order :: PropertyFits(props, k, args)) <==>
      (forall k | k in props :: PropertyFits(props, k, args));
  }

  lemma ObjectSchemaAccepts(required: seq<string>, props: Object, args: Object)
    ensures SchemaAccepts(Some(ObjectSchema(required, props)), Some(args)) <==>
      (forall r | r in required :: r in args) && (forall k | k in props :: PropertyFits(props, k, args))
  {
    RequiredNamesOf(required, props);
    var schema := ObjectSchema(required, props);
    assert "type" in schema && schema["type"] == Str("object");
    assert forall r :: r in RequiredNames(schema) <==> r in required;
    if SchemaAccepts(Some(schema), Some(args)) {
      assert forall k | k in props :: k in Properties(schema);
    }
  }

  lemma RequiredNamesOf(required: seq<string>, props: Object)
    ensures RequiredNames(ObjectSchema(required, props)) == set r | r in required
    ensures Properties(ObjectSchema(required, props)) == props
  {
    var items := ObjectSchema(required, props)["required"].items;
    assert forall i | 0 <= i < |required| :: items[i] == Str(required[i]);
    forall r | r in required ensures r in RequiredNames(ObjectSchema(required, props)) {
      var i :| 0 <= i < |required| && required[i] == r;
      assert items[i] in items;
    }
  }

  /** A check for an array that is given a null. */
  predicate AsksNilForKind(v: Validator, args: Object) {
    v.TypeOf? && v.kind == "array" && v.key in args && args[v.key] == Nil
  }

  predicate PanicsAt(vs: seq<Validator>, args: Object, i: nat)
    requires i < |vs|
  {
    AsksNilForKind(vs[i], args) && forall j | 0 <= j < i :: Apply(vs[j], args) == Pass
  }

  lemma {:induction false} ApplyPanics(v: Validator, args: Object)
    ensures Apply(v, args) == Panic <==> AsksNilForKind(v, args)
  {
  }

  /** A chain panics exactly if it comes to a check for an array that is given a null. */
  lemma {:induction false} ChainPanics(vs: seq<Validator>, args: Object)
    ensures Chain(vs, args) == Panic <==> exists i | 0 <= i < |vs| :: PanicsAt(vs, args, i)
  {
    hide Apply, AsksNilForKind;
    if vs != [] {
      ApplyPanics(vs[0], args);
      if Apply(vs[0], args) == Panic {
        assert PanicsAt(vs, args, 0);
      } else if Apply(vs[0], args) == Pass {
        ChainPanics(vs[1..], args);
        if Chain(vs[1..], args) == Panic {
          var i :| 0 <= i < |vs[1..]| && PanicsAt(vs[1..], args, i);
          assert forall j | 0 < j < i + 1 :: vs[j] == vs[1..][j - 1];
          assert PanicsAt(vs, args, i + 1);
        }
        forall i | 0 <= i < |vs| && PanicsAt(vs, args, i) ensures Chain(vs, args) == Panic {
          assert i > 0 && vs[1..][i - 1] == vs[i] && forall j | 0 <= j < i - 1 :: vs[1..][j] == vs[j + 1];
          assert PanicsAt(vs[1..], args, i - 1);
        }
      }
    }
  }
}
