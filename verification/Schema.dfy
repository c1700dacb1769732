/** packages/fixtures/conformance/harness.ts: `matchesType` and `validateSchema`,
    the harness's own dialect of JSON Schema.

    Error messages are kept as data: the place in the value, and what failed
    there.  Regular expressions are a parameter. */
module Schema {
  import opened Json
  import opened JsonText
  import opened Numbers
  import CanonicalJson

  /** The keywords the validator looks at, and `maximum`, which the schema files
      use and the validator does not look at. */
  datatype Schema = Schema(
    anyOf: Choice, konst: Option<Value>, enum: Option<seq<Value>>, types: seq<string>,
    required: seq<string>, properties: Shape, items: Option<Schema>, closed: bool,
    minItems: Option<int>, minLength: Option<int>, minimum: Option<real>, maximum: Option<real>,
    pattern: Option<string>)

  datatype Choice = NoChoice | AnyOf(options: seq<Schema>)

  datatype Shape = NoShape | Properties(list: seq<Property>)

  datatype Property = Property(name: string, schema: Schema)

  const ANY := Schema(NoChoice, None, None, [], [], NoShape, None, false, None, None, None, None, None)

  type Matcher = (string, string) -> bool

  datatype Step = Key(name: string) | Index(i: nat)
  type Path = seq<Step>

  datatype Problem =
    | NoAlternative(path: Path, firsts: seq<Problem>)
    | NotConst(path: Path)
    | NotInEnum(path: Path)
    | WrongType(path: Path)
    | TooShort(path: Path)
    | NoPattern(path: Path)
    | TooSmall(path: Path)
    | TooFewItems(path: Path)
    | Missing(path: Path)
    | NotAllowed(path: Path)

  predicate MatchesType(v: Value, t: string) {
    if t == "array" then v.Arr?
    else if t == "boolean" then v.Bool?
    else if t == "integer" then v.Num? && IsInteger(v.text)
    else if t == "null" then v.Null?
    else if t == "number" then v.Num?
    else if t == "object" then v.Obj?
    else if t == "string" then v.Str?
    else true
  }

  predicate SomeType(v: Value, types: seq<string>) {
    exists i | 0 <= i < |types| :: MatchesType(v, types[i])
  }

  predicate SomeEqual(v: Value, values: seq<Value>) {
    exists i | 0 <= i < |values| :: Stringify(values[i]) == Stringify(v)
  }

  predicate Declared(name: string, properties: seq<Property>) {
    exists i | 0 <= i < |properties| :: properties[i].name == name
  }

  // ----- the validator

  function Validate(v: Value, s: Schema, path: Path, re: Matcher): seq<Problem>
    decreases s, 1, 0
  {
    if s.anyOf.AnyOf? then
      var candidates := ValidateEach(v, s.anyOf.options, path, re);
      if [] in candidates then [] else [NoAlternative(path, Firsts(candidates))]
    else if s.konst.Some? && Stringify(v) != Stringify(s.konst.value) then [NotConst(path)]
    else if s.enum.Some? && !SomeEqual(v, s.enum.value) then [NotInEnum(path)]
    else if s.types != [] && !SomeType(v, s.types) then [WrongType(path)]
    else ValidateContents(v, s, path, re)
  }

  function ValidateContents(v: Value, s: Schema, path: Path, re: Matcher): seq<Problem>
    decreases s, 0, 0
  {
    match v
    case Str(text) =>
      (if s.minLength.Some? && |text| < s.minLength.value then [TooShort(path)] else []) +
      (if s.pattern.Some? && s.pattern.value != "" && !re(s.pattern.value, text) then [NoPattern(path)] else [])
    case Num(text) =>
      if s.minimum.Some? && NumValue(text) < s.minimum.value then [TooSmall(path)] else []
    case Arr(items) =>
      (if s.minItems.Some? && |items| < s.minItems.value then [TooFewItems(path)] else []) +
      (if s.items.Some? then ValidateItems(items, 0, s.items.value, path, re) else [])
    case Obj(fields) =>
      MissingKeys(fields, s.required, path) +
      (if s.properties.Properties? then ValidateProperties(fields, s.properties.list, path, re) else []) +
      (if s.closed && s.properties.Properties? then ExtraKeys(fields, s.properties.list, path) else [])
    case _ => []
  }

  function ValidateEach(v: Value, schemas: seq<Schema>, path: Path, re: Matcher): (r: seq<seq<Problem>>)
    ensures |r| == |schemas|
    ensures forall i | 0 <= i < |schemas| :: r[i] == Validate(v, schemas[i], path, re)
    decreases schemas, 0, 0
  {
    if schemas == [] then []
    else [Validate(v, schemas[0], path, re)] + ValidateEach(v, schemas[1..], path, re)
  }

  function Firsts(candidates: seq<seq<Problem>>): seq<Problem>
    requires [] !in candidates
  {
    if candidates == [] then [] else [candidates[0][0]] + Firsts(candidates[1..])
  }

  function ValidateItems(items: seq<Value>, i: nat, s: Schema, path: Path, re: Matcher): seq<Problem>
    requires i <= |items|
    decreases s, 2, |items| - i
  {
    if i == |items| then []
    else Validate(items[i], s, path + [Index(i)], re) + ValidateItems(items, i + 1, s, path, re)
  }

  function MissingKeys(fields: seq<Field>, required: seq<string>, path: Path): seq<Problem> {
    if required == [] then []
    else if Has(fields, required[0]) then MissingKeys(fields, required[1..], path)
    else [Missing(path + [Key(required[0])])] + MissingKeys(fields, required[1..], path)
  }

  function ValidateProperties(fields: seq<Field>, properties: seq<Property>, path: Path, re: Matcher): seq<Problem>
    decreases properties, 0, 0
  {
    if properties == [] then []
    else
      var p := properties[0];
      (if Has(fields, p.name) then Validate(Get(fields, p.name), p.schema, path + [Key(p.name)], re) else []) +
      ValidateProperties(fields, properties[1..], path, re)
  }

  function ExtraKeys(fields: seq<Field>, properties: seq<Property>, path: Path): seq<Problem> {
    if fields == [] then []
    else if Declared(fields[0].key, properties) then ExtraKeys(fields[1..], properties, path)
    else [NotAllowed(path + [Key(fields[0].key)])] + ExtraKeys(fields[1..], properties, path)
  }

  // ----- what a schema says

  /** The two values are the same JSON text: no reordering of keys. */
  ghost predicate SameText(a: Value, b: Value) {
    (a.Undefined? <==> b.Undefined?) && Settled(a) == Settled(b)
  }

  /** A schema read keyword by keyword.  `anyOf` stands alone: beside it, other
      keywords are not looked at. */
  ghost predicate Satisfies(v: Value, s: Schema, re: Matcher)
    decreases s, 1
  {
    if s.anyOf.AnyOf? then exists i | 0 <= i < |s.anyOf.options| :: Satisfies(v, s.anyOf.options[i], re)
    else
      && (s.konst.Some? ==> SameText(v, s.konst.value))
      && (s.enum.Some? ==> exists i | 0 <= i < |s.enum.value| :: SameText(v, s.enum.value[i]))
      && (s.types != [] ==> exists t | t in s.types :: MatchesType(v, t))
      && ContentsSatisfy(v, s, re)
  }

  ghost predicate ContentsSatisfy(v: Value, s: Schema, re: Matcher)
    decreases s, 0
  {
    && (v.Str? && s.minLength.Some? ==> s.minLength.value <= |v.s|)
    && (v.Str? && s.pattern.Some? && s.pattern.value != "" ==> re(s.pattern.value, v.s))
    && (v.Num? && s.minimum.Some? ==> s.minimum.value <= NumValue(v.text))
    && (v.Arr? && s.minItems.Some? ==> s.minItems.value <= |v.items|)
    && (v.Arr? && s.items.Some? ==> forall i | 0 <= i < |v.items| :: Satisfies(v.items[i], s.items.value, re))
    && (v.Obj? ==> forall k | k in s.required :: Has(v.fields, k))
    && (v.Obj? && s.properties.Properties? ==>
          forall i | 0 <= i < |s.properties.list| && Has(v.fields, s.properties.list[i].name) ::
            Satisfies(Get(v.fields, s.properties.list[i].name), s.properties.list[i].schema, re))
    && (v.Obj? && s.properties.Properties? && s.closed ==>
          forall i | 0 <= i < |v.fields| :: Declared(v.fields[i].key, s.properties.list))
  }

  /** The values inside a schema are JSON values. */
  ghost predicate Sound(s: Schema) {
    && (s.anyOf.AnyOf? ==> forall i | 0 <= i < |s.anyOf.options| :: Sound(s.anyOf.options[i]))
    && (s.konst.Some? ==> Valid(s.konst.value))
    && (s.enum.Some? ==> forall i | 0 <= i < |s.enum.value| :: Valid(s.enum.value[i]))
    && (s.items.Some? ==> Sound(s.items.value))
    && (s.properties.Properties? ==> forall i | 0 <= i < |s.properties.list| :: Sound(s.properties.list[i].schema))
  }

  // ----- the validator decides the reading

  lemma StringifyIff(a: Value, b: Value)
    requires Valid(a) && Valid(b)
    ensures Stringify(a) == Stringify(b) <==> SameText(a, b)
  {
    ParsePrinted(a);
    ParsePrinted(b);
    CanonicalJson.PrintSettled(a);
    CanonicalJson.PrintSettled(b);
  }

  lemma SomeEqualIff(v: Value, values: seq<Value>)
    requires Valid(v) && forall i | 0 <= i < |values| :: Valid(values[i])
    ensures SomeEqual(v, values) <==> exists i | 0 <= i < |values| :: SameText(v, values[i])
  {
    forall i | 0 <= i < |values|
      ensures Stringify(values[i]) == Stringify(v) <==> SameText(v, values[i])
    {
      StringifyIff(v, values[i]);
    }
  }

  lemma SomeTypeIff(v: Value, types: seq<string>)
    ensures SomeType(v, types) <==> exists t | t in types :: MatchesType(v, t)
  {
    if exists t | t in types :: MatchesType(v, t) {
      var t :| t in types && MatchesType(v, t);
      var i :| 0 <= i < |types| && types[i] == t;
    }
  }

  lemma {:induction false} MissingKeysIff(fields: seq<Field>, required: seq<string>, path: Path)
    ensures MissingKeys(fields, required, path) == [] <==> forall k | k in required :: Has(fields, k)
  {
    if required != [] { MissingKeysIff(fields, required[1..], path); }
  }

  lemma {:induction false} ExtraKeysIff(fields: seq<Field>, properties: seq<Property>, path: Path)
    ensures ExtraKeys(fields, properties, path) == []
       <==> forall i | 0 <= i < |fields| :: Declared(fields[i].key, properties)
  {
    if fields != [] {
      ExtraKeysIff(fields[1..], properties, path);
      assert forall i | 1 <= i < |fields| :: fields[1..][i - 1] == fields[i];
    }
  }

  /** No errors, exactly when the value satisfies the schema. */
  lemma {:induction false} ValidateIff(v: Value, s: Schema, path: Path, re: Matcher)
    requires Valid(v) && Sound(s)
    ensures Validate(v, s, path, re) == [] <==> Satisfies(v, s, re)
    decreases s, 1, 0
  {
    hide Stringify, SameText, SomeEqual, SomeType, MatchesType, ValidateContents, ContentsSatisfy, ValidateEach;
    if s.anyOf.AnyOf? {
      ValidateEachIff(v, s.anyOf.options, path, re);
    } else {
      if s.konst.Some? { StringifyIff(v, s.konst.value); }
      if s.enum.Some? { SomeEqualIff(v, s.enum.value); }
      SomeTypeIff(v, s.types);
      ValidateContentsIff(v, s, path, re);
    }
  }

  lemma {:induction false} ValidateContentsIff(v: Value, s: Schema, path: Path, re: Matcher)
    requires Valid(v) && Sound(s)
    ensures ValidateContents(v, s, path, re) == [] <==> ContentsSatisfy(v, s, re)
    decreases s, 0, 0
  {
    hide NumValue, MissingKeys, ExtraKeys, Declared, Has, Get, ValidateItems, ValidateProperties, Satisfies;
    match v
    case Arr(items) => if s.items.Some? { ValidateItemsIff(items, 0, s.items.value, path, re); }
    case Obj(fields) =>
      MissingKeysIff(fields, s.required, path);
      if s.properties.Properties? {
        ValidatePropertiesIff(fields, s.properties.list, path, re);
        ExtraKeysIff(fields, s.properties.list, path);
      }
    case _ =>
  }

  lemma {:induction false} ValidateEachIff(v: Value, schemas: seq<Schema>, path: Path, re: Matcher)
    requires Valid(v) && forall i | 0 <= i < |schemas| :: Sound(schemas[i])
    ensures [] in ValidateEach(v, schemas, path, re) <==> exists i | 0 <= i < |schemas| :: Satisfies(v, schemas[i], re)
    decreases schemas, 0, 0
  {
    hide Validate, Satisfies;
    if schemas != [] {
      ValidateIff(v, schemas[0], path, re);
      ValidateEachIff(v, schemas[1..], path, re);
      assert forall i | 1 <= i < |schemas| :: schemas[1..][i - 1] == schemas[i];
    }
  }

  lemma {:induction false} ValidateItemsIff(items: seq<Value>, i: nat, s: Schema, path: Path, re: Matcher)
    requires i <= |items| && Sound(s) && forall k | 0 <= k < |items| :: Valid(items[k])
    ensures ValidateItems(items, i, s, path, re) == [] <==> forall k | i <= k < |items| :: Satisfies(items[k], s, re)
    decreases s, 2, |items| - i
  {
    hide Validate, Satisfies;
    if i < |items| {
      ValidateIff(items[i], s, path + [Index(i)], re);
      ValidateItemsIff(items, i + 1, s, path, re);
    }
  }

  lemma {:induction false} ValidatePropertiesIff(fields: seq<Field>, properties: seq<Property>, path: Path, re: Matcher)
    requires Valid(Obj(fields)) && forall i | 0 <= i < |properties| :: Sound(properties[i].schema)
    ensures ValidateProperties(fields, properties, path, re) == [] <==>
            forall i | 0 <= i < |properties| && Has(fields, properties[i].name) ::
              Satisfies(Get(fields, properties[i].name), properties[i].schema, re)
    decreases properties, 0, 0
  {
    hide Validate, Satisfies;
    if properties != [] {
      var p := properties[0];
      if Has(fields, p.name) {
        GetValid(fields, p.name);
        ValidateIff(Get(fields, p.name), p.schema, path + [Key(p.name)], re);
      }
      ValidatePropertiesIff(fields, properties[1..], path, re);
      assert forall i | 1 <= i < |properties| :: properties[1..][i - 1] == properties[i];
    }
  }

  lemma GetValid(fields: seq<Field>, key: string)
    requires Valid(Obj(fields))
    ensures Valid(Get(fields, key))
  {
  }
}
