/**
 * The part of JSON-schema validation that the providers rely on, and the
 * default-injecting extension of the validator: before the property
 * constraints of a schema are checked, every property whose subschema
 * declares a "default" and that the instance lacks is set to that default,
 * in place (`instance.setdefault(prop, subschema["default"])`).
 *
 * Only the keywords the repository's schemas use are encoded: "required",
 * and per property "type" (string or object), "enum", the one "pattern"
 * `^https?://` and "default". Keywords are evaluated in the order they
 * have in every schema of the repository: "required" before "properties";
 * within a property, "type", then "enum", then "pattern".
 */
module DefaultInjectingValidator {
  import opened Wrappers
  import opened PyStrings
  import opened Json

  datatype SchemaType = StringType | ObjectType

  /** The only "pattern" in the repository's schemas, `^https?://`. */
  datatype Pattern = HttpUrl

  datatype PropertySchema = PropertySchema(
    name: string,
    typ: Option<SchemaType>,
    choices: Option<seq<Json>>,
    pattern: Option<Pattern>,
    default: Option<Json>)

  /** An object schema: its "required" list and its "properties", in declaration order. */
  datatype Schema = Schema(required: seq<string>, properties: seq<PropertySchema>)

  /** The first violation a validation reports. */
  datatype SchemaError =
    | Missing(property: string)
    | WrongType(value: Json, expected: SchemaType)
    | NotOneOf(value: Json, choices: seq<Json>)
    | NoMatch(value: Json, pattern: Pattern)

  function TypeWord(t: SchemaType): string {
    match t
    case StringType => "string"
    case ObjectType => "object"
  }

  function PatternText(p: Pattern): string {
    match p
    case HttpUrl => "^https?://"
  }

  predicate HasType(v: Json, t: SchemaType) {
    match t
    case StringType => v.JStr?
    case ObjectType => v.JObj?
  }

  /** `re.search(pattern, s)` for the one pattern used. */
  predicate MatchesPattern(p: Pattern, s: string) {
    match p
    case HttpUrl => StartsWith(s, "http://") || StartsWith(s, "https://")
  }

  /** The validator's `e.message` for an error. */
  function Message(e: SchemaError): string {
    match e
    case Missing(p) => "'" + p + "' is a required property"
    case WrongType(v, t) => Repr(v) + " is not of type '" + TypeWord(t) + "'"
    case NotOneOf(v, cs) => Repr(v) + " is not one of " + Repr(JList(cs))
    case NoMatch(v, p) => Repr(v) + " does not match '" + PatternText(p) + "'"
  }

  /** A value meets every constraint of its property's subschema. */
  predicate Satisfies(p: PropertySchema, v: Json) {
    && (p.typ.Some? ==> HasType(v, p.typ.value))
    && (p.choices.Some? ==> v in p.choices.value)
    && (p.pattern.Some? && v.JStr? ==> MatchesPattern(p.pattern.value, v.s))
  }

  /** The first constraint of a subschema that a value violates: "type", then "enum", then "pattern". */
  function ValueError(p: PropertySchema, v: Json): (r: Option<SchemaError>)
    ensures r.None? <==> Satisfies(p, v)
    // "type" is reported first, "enum" only for a value of the right type,
    // and "pattern" only for a value that passes both.
    ensures p.typ.Some? && !HasType(v, p.typ.value) ==> r == Some(WrongType(v, p.typ.value))
    ensures (p.typ.None? || HasType(v, p.typ.value)) && p.choices.Some? && v !in p.choices.value ==>
      r == Some(NotOneOf(v, p.choices.value))
    ensures (p.typ.None? || HasType(v, p.typ.value)) && (p.choices.None? || v in p.choices.value) && !Satisfies(p, v) ==>
      r == Some(NoMatch(v, p.pattern.value))
  {
    if p.typ.Some? && !HasType(v, p.typ.value) then Some(WrongType(v, p.typ.value))
    else if p.choices.Some? && v !in p.choices.value then Some(NotOneOf(v, p.choices.value))
    else if p.pattern.Some? && v.JStr? && !MatchesPattern(p.pattern.value, v.s) then Some(NoMatch(v, p.pattern.value))
    else None
  }

  /** The first name of the "required" list that the instance lacks. */
  function FirstMissing(instance: Object, required: seq<string>): (r: Option<string>)
    ensures r.None? <==> forall k :: k in required ==> k in instance
    ensures r.Some? ==> r.value in required && r.value !in instance
    // The first such name in the order of the list.
    ensures r.Some? ==> exists i :: 0 <= i < |required| && required[i] == r.value &&
                          forall j :: 0 <= j < i ==> required[j] in instance
  {
    if required == [] then None
    else if required[0] !in instance then Some(required[0])
    else
      var r := FirstMissing(instance, required[1..]);
      assert r.Some? ==> exists i :: 1 <= i < |required| && required[i] == r.value &&
                                     forall j :: 0 <= j < i ==> required[j] in instance by {
        if r.Some? {
          var i :| 0 <= i < |required[1..]| && required[1..][i] == r.value &&
                   forall j :: 0 <= j < i ==> required[1..][j] in instance;
          forall j | 0 <= j < i + 1 ensures required[j] in instance {
            if j > 0 { assert required[j] == required[1..][j - 1]; }
          }
          assert required[i + 1] == required[1..][i];
        }
      }
      r
  }

  /** The first error of the "properties" keyword: properties in order, only those present. */
  function FirstPropertyError(instance: Object, props: seq<PropertySchema>): (r: Option<SchemaError>)
    ensures r.None? <==> forall p :: p in props && p.name in instance ==> Satisfies(p, instance[p.name])
    ensures r.Some? ==> exists p :: p in props && p.name in instance && ValueError(p, instance[p.name]) == r
    // The error of the first failing property in the order of the list.
    ensures r.Some? ==> FirstFailing(instance, props, r)
  {
    if props == [] then None
    else if props[0].name in instance && ValueError(props[0], instance[props[0].name]).Some? then
      ValueError(props[0], instance[props[0].name])
    else
      var r := FirstPropertyError(instance, props[1..]);
      assert r.Some? ==> FirstFailing(instance, props, r) by {
        if r.Some? {
          FirstFailingBehind(instance, props, r);
        }
      }
      r
  }

  /** `r` is the error of a present property, and every present property before it satisfies its subschema. */
  ghost predicate FirstFailing(instance: Object, props: seq<PropertySchema>, r: Option<SchemaError>) {
    exists i :: 0 <= i < |props| && props[i].name in instance && ValueError(props[i], instance[props[i].name]) == r &&
      forall j :: 0 <= j < i && props[j].name in instance ==> Satisfies(props[j], instance[props[j].name])
  }

  /** A first failing property behind a first property that does not fail is the first failing one of the whole list. */
  lemma FirstFailingBehind(instance: Object, props: seq<PropertySchema>, r: Option<SchemaError>)
    requires |props| > 0 && FirstFailing(instance, props[1..], r)
    requires props[0].name in instance ==> Satisfies(props[0], instance[props[0].name])
    ensures FirstFailing(instance, props, r)
  {
    var i :| 0 <= i < |props[1..]| && props[1..][i].name in instance && ValueError(props[1..][i], instance[props[1..][i].name]) == r &&
             forall j :: 0 <= j < i && props[1..][j].name in instance ==> Satisfies(props[1..][j], instance[props[1..][j].name]);
    forall j | 0 <= j < i + 1 && props[j].name in instance ensures Satisfies(props[j], instance[props[j].name]) {
      if j > 0 { assert props[j] == props[1..][j - 1]; }
    }
    assert props[i + 1] == props[1..][i];
  }

  /** The instance satisfies the schema: an independent, order-free statement. */
  predicate Conforms(instance: Object, schema: Schema) {
    && (forall k :: k in schema.required ==> k in instance)
    && (forall p :: p in schema.properties && p.name in instance ==> Satisfies(p, instance[p.name]))
  }

  /** Plain `jsonschema.validate` (no default injection): the first error, if any. */
  function Check(instance: Object, schema: Schema): (r: Option<SchemaError>)
    ensures r.None? <==> Conforms(instance, schema)
  {
    match FirstMissing(instance, schema.required)
    case Some(k) => Some(Missing(k))
    case None => FirstPropertyError(instance, schema.properties)
  }

  /** The names that have a declared default. */
  ghost function DefaultedNames(props: seq<PropertySchema>): set<string> {
    set p | p in props && p.default.Some? :: p.name
  }

  /** The default that `setdefault` installs for `name`: that of the first property so named that has one. */
  function FirstDefault(props: seq<PropertySchema>, name: string): Option<Json> {
    if props == [] then None
    else if props[0].name == name && props[0].default.Some? then props[0].default
    else FirstDefault(props[1..], name)
  }

  /** One step of the injection loop: `instance.setdefault(prop, subschema["default"])` when there is a default. */
  function SetDefault(instance: Object, p: PropertySchema): Object {
    if p.default.Some? && p.name !in instance then instance[p.name := p.default.value] else instance
  }

  /** The instance after the injection loop has run over `props`. */
  function WithDefaults(instance: Object, props: seq<PropertySchema>): (r: Object)
    ensures r.Keys == instance.Keys + DefaultedNames(props)
    ensures forall k :: k in instance ==> r[k] == instance[k]
  {
    if props == [] then instance
    else
      var before := props[..|props| - 1];
      var last := props[|props| - 1];
      assert props == before + [last];
      assert DefaultedNames(props) == DefaultedNames(before) + (if last.default.Some? then {last.name} else {});
      SetDefault(WithDefaults(instance, before), last)
  }

  lemma {:induction false} FirstDefaultAppend(props: seq<PropertySchema>, p: PropertySchema, name: string)
    ensures FirstDefault(props + [p], name) ==
      if FirstDefault(props, name).Some? then FirstDefault(props, name)
      else if p.name == name && p.default.Some? then p.default
      else None
  {
    if props != [] {
      assert (props + [p])[1..] == props[1..] + [p];
      FirstDefaultAppend(props[1..], p, name);
    } else {
      assert [p][1..] == [];
    }
  }

  lemma {:induction false} FirstDefaultDefined(props: seq<PropertySchema>, name: string)
    ensures FirstDefault(props, name).Some? <==> name in DefaultedNames(props)
  {
    if props != [] {
      FirstDefaultDefined(props[1..], name);
      assert props == [props[0]] + props[1..];
      assert DefaultedNames(props) == DefaultedNames(props[1..]) + (if props[0].default.Some? then {props[0].name} else {});
    }
  }

  /** A defaulted property the instance lacked receives the first default declared for it. */
  lemma {:induction false} WithDefaultsFills(instance: Object, props: seq<PropertySchema>, name: string)
    requires name !in instance && name in DefaultedNames(props)
    ensures FirstDefault(props, name).Some?
    ensures WithDefaults(instance, props)[name] == FirstDefault(props, name).value
  {
    FirstDefaultDefined(props, name);
    var before := props[..|props| - 1];
    var last := props[|props| - 1];
    assert props == before + [last];
    FirstDefaultAppend(before, last, name);
    FirstDefaultDefined(before, name);
    if name in DefaultedNames(before) {
      WithDefaultsFills(instance, before, name);
    }
  }

  /**
   * The `set_defaults` loop: the instance afterwards holds every defaulted
   * property, keeps every value it had, and gains no other key.
   */
  method InjectDefaults(instance: Object, props: seq<PropertySchema>) returns (r: Object)
    ensures r == WithDefaults(instance, props)
    ensures r.Keys == instance.Keys + DefaultedNames(props)
    ensures forall k :: k in instance ==> r[k] == instance[k]
    ensures forall k :: k in r && k !in instance ==> FirstDefault(props, k) == Some(r[k])
  {
    r := instance;
    for i := 0 to |props|
      invariant r == WithDefaults(instance, props[..i])
    {
      assert props[..i + 1] == props[..i] + [props[i]];
      var p := props[i];
      if p.default.Some? && p.name !in r {
        r := r[p.name := p.default.value];
      }
    }
    assert props[..|props|] == props;
    forall k | k in r && k !in instance
      ensures FirstDefault(props, k) == Some(r[k])
    {
      WithDefaultsFills(instance, props, k);
    }
  }

  /**
   * `default_injecting_validator.validate`: the instance as it is afterwards
   * (defaults injected unless the "required" check stopped validation
   * first) and the first error, if any.
   */
  function Validation(instance: Object, schema: Schema): (r: (Object, Option<SchemaError>))
    ensures r.1.None? <==> (forall k :: k in schema.required ==> k in instance) && Conforms(r.0, schema)
    ensures (forall k :: k in schema.required ==> k in instance) ==> r.0 == WithDefaults(instance, schema.properties)
    ensures !(forall k :: k in schema.required ==> k in instance) ==> r.0 == instance && r.1.Some? && r.1.value.Missing?
  {
    match FirstMissing(instance, schema.required)
    case Some(k) => (instance, Some(Missing(k)))
    case None =>
      var injected := WithDefaults(instance, schema.properties);
      (injected, FirstPropertyError(injected, schema.properties))
  }

  /** Validation with default injection, running the injection loop on the instance. */
  method Validate(instance: Object, schema: Schema) returns (injected: Object, error: Option<SchemaError>)
    ensures (injected, error) == Validation(instance, schema)
  {
    var missing := FirstMissing(instance, schema.required);
    if missing.Some? {
      return instance, Some(Missing(missing.value));
    }
    injected := InjectDefaults(instance, schema.properties);
    error := FirstPropertyError(injected, schema.properties);
  }

  /** Injected defaults are themselves validated: a defaulted value that breaks its subschema is reported. */
  lemma DefaultsAreValidated(instance: Object, schema: Schema, p: PropertySchema)
    requires forall k :: k in schema.required ==> k in instance
    requires p in schema.properties && p.name !in instance && FirstDefault(schema.properties, p.name).Some?
    requires !Satisfies(p, FirstDefault(schema.properties, p.name).value)
    ensures Validation(instance, schema).1.Some?
    ensures p.name in Validation(instance, schema).0
  {
    FirstDefaultDefined(schema.properties, p.name);
    WithDefaultsFills(instance, schema.properties, p.name);
  }
}
