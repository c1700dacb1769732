/** JSON Schema's own reading (JSON Schema Validation 2020-12, section 6, and Core,
    sections 10.2.1.2 and 10.3.2.3) of the schemas that
    packages/fixtures/conformance/harness.ts validates in its own way, and when
    the two readings agree. */
module JsonSchema {
  import opened Json
  import opened JsonText
  import opened Numbers
  import opened NumberFacts
  import opened Schema
  import CanonicalJson

  /** Equality of JSON values: the order of keys does not matter. */
  ghost predicate Equal(a: Value, b: Value) {
    (a.Undefined? <==> b.Undefined?) && CanonicalJson.Same(a, b)
  }

  /** Every keyword counts, whatever stands beside it. */
  ghost predicate Standard(v: Value, s: Schema, re: Matcher)
    decreases s, 1
  {
    && (s.anyOf.AnyOf? ==> exists i | 0 <= i < |s.anyOf.options| :: Standard(v, s.anyOf.options[i], re))
    && (s.konst.Some? ==> Equal(v, s.konst.value))
    && (s.enum.Some? ==> exists i | 0 <= i < |s.enum.value| :: Equal(v, s.enum.value[i]))
    && (s.types != [] ==> exists t | t in s.types :: MatchesType(v, t))
    && ContentsStandard(v, s, re)
  }

  ghost predicate ContentsStandard(v: Value, s: Schema, re: Matcher)
    decreases s, 0
  {
    && (v.Str? && s.minLength.Some? ==> s.minLength.value <= |v.s|)
    && (v.Str? && s.pattern.Some? ==> re(s.pattern.value, v.s))
    && (v.Num? && s.minimum.Some? ==> s.minimum.value <= NumValue(v.text))
    && (v.Num? && s.maximum.Some? ==> NumValue(v.text) <= s.maximum.value)
    && (v.Arr? && s.minItems.Some? ==> s.minItems.value <= |v.items|)
    && (v.Arr? && s.items.Some? ==> forall i | 0 <= i < |v.items| :: Standard(v.items[i], s.items.value, re))
    && (v.Obj? ==> forall k | k in s.required :: Has(v.fields, k))
    && (v.Obj? && s.properties.Properties? ==>
          forall i | 0 <= i < |s.properties.list| && Has(v.fields, s.properties.list[i].name) ::
            Standard(Get(v.fields, s.properties.list[i].name), s.properties.list[i].schema, re))
    && (v.Obj? && s.closed ==> forall i | 0 <= i < |v.fields| :: Named(v.fields[i].key, s.properties))
  }

  predicate Named(key: string, properties: Shape) {
    properties.Properties? && Declared(key, properties.list)
  }

  // ----- const and enum

  ghost predicate NoObjects(v: Value) {
    !v.Obj? && (v.Arr? ==> forall i | 0 <= i < |v.items| :: NoObjects(v.items[i]))
  }

  lemma {:induction false} SameSettled(a: Value, b: Value)
    requires NoObjects(b)
    ensures CanonicalJson.Same(a, b) <==> Settled(a) == Settled(b)
    decreases b
  {
    if a.Arr? && b.Arr? && |a.items| == |b.items| {
      forall i | 0 <= i < |a.items|
        ensures CanonicalJson.Same(a.items[i], b.items[i]) <==> Settled(a.items[i]) == Settled(b.items[i])
      {
        SameSettled(a.items[i], b.items[i]);
      }
      var x, y := SettledItems(a.items), SettledItems(b.items);
      assert x == y <==> forall i | 0 <= i < |x| :: x[i] == y[i];
    }
  }

  lemma EqualIsText(a: Value, b: Value)
    requires NoObjects(b)
    ensures Equal(a, b) <==> SameText(a, b)
  {
    SameSettled(a, b);
  }

  // ----- where the validator is never stricter

  /** No constant to compare with is or contains an object. */
  ghost predicate FlatConstants(s: Schema) {
    && (s.anyOf.AnyOf? ==> forall i | 0 <= i < |s.anyOf.options| :: FlatConstants(s.anyOf.options[i]))
    && (s.konst.Some? ==> NoObjects(s.konst.value))
    && (s.enum.Some? ==> forall i | 0 <= i < |s.enum.value| :: NoObjects(s.enum.value[i]))
    && (s.items.Some? ==> FlatConstants(s.items.value))
    && (s.properties.Properties? ==>
          forall i | 0 <= i < |s.properties.list| :: FlatConstants(s.properties.list[i].schema))
  }

  /** What JSON Schema accepts, the validator accepts. */
  lemma {:induction false} NeverStricter(v: Value, s: Schema, re: Matcher)
    requires FlatConstants(s) && Standard(v, s, re)
    ensures Satisfies(v, s, re)
    decreases s, 1
  {
    hide MatchesType, ContentsStandard, ContentsSatisfy, SameText, Equal, NoObjects;
    if s.anyOf.AnyOf? {
      var i :| 0 <= i < |s.anyOf.options| && Standard(v, s.anyOf.options[i], re);
      NeverStricter(v, s.anyOf.options[i], re);
    } else {
      ConstantsAgree(v, s);
      ContentsNeverStricter(v, s, re);
    }
  }

  lemma ConstantsAgree(v: Value, s: Schema)
    requires FlatConstants(s)
    ensures s.konst.Some? ==> (Equal(v, s.konst.value) <==> SameText(v, s.konst.value))
    ensures s.enum.Some? ==>
              forall i | 0 <= i < |s.enum.value| :: Equal(v, s.enum.value[i]) <==> SameText(v, s.enum.value[i])
  {
    hide SameText, Equal;
    if s.konst.Some? { EqualIsText(v, s.konst.value); }
    if s.enum.Some? {
      forall i | 0 <= i < |s.enum.value|
        ensures Equal(v, s.enum.value[i]) <==> SameText(v, s.enum.value[i])
      {
        EqualIsText(v, s.enum.value[i]);
      }
    }
  }

  lemma {:induction false} ContentsNeverStricter(v: Value, s: Schema, re: Matcher)
    requires FlatConstants(s) && ContentsStandard(v, s, re)
    ensures ContentsSatisfy(v, s, re)
    decreases s, 0
  {
    hide NumValue, Has, Get, Satisfies, Standard, Declared;
    if v.Arr? && s.items.Some? {
      forall i | 0 <= i < |v.items| ensures Satisfies(v.items[i], s.items.value, re) {
        NeverStricter(v.items[i], s.items.value, re);
      }
    }
    if v.Obj? && s.properties.Properties? {
      forall i | 0 <= i < |s.properties.list| && Has(v.fields, s.properties.list[i].name)
        ensures Satisfies(Get(v.fields, s.properties.list[i].name), s.properties.list[i].schema, re)
      {
        NeverStricter(Get(v.fields, s.properties.list[i].name), s.properties.list[i].schema, re);
      }
    }
  }

  // ----- where the two readings differ in maxima alone

  /** Every `anyOf` stands alone, no constant is or contains an object, no pattern
      is empty, and only a schema with properties is closed. */
  ghost predicate Plain(s: Schema) {
    && (s.anyOf.AnyOf? ==>
          s == ANY.(anyOf := s.anyOf) && forall i | 0 <= i < |s.anyOf.options| :: Plain(s.anyOf.options[i]))
    && (s.konst.Some? ==> NoObjects(s.konst.value))
    && (s.enum.Some? ==> forall i | 0 <= i < |s.enum.value| :: NoObjects(s.enum.value[i]))
    && s.pattern != Some("")
    && (s.closed ==> s.properties.Properties?)
    && (s.items.Some? ==> Plain(s.items.value))
    && (s.properties.Properties? ==> forall i | 0 <= i < |s.properties.list| :: Plain(s.properties.list[i].schema))
  }

  /** No number exceeds the `maximum` of its schema. */
  ghost predicate WithinMaxima(v: Value, s: Schema, re: Matcher)
    decreases s
  {
    && (s.anyOf.AnyOf? ==>
          exists i | 0 <= i < |s.anyOf.options| ::
            Satisfies(v, s.anyOf.options[i], re) && WithinMaxima(v, s.anyOf.options[i], re))
    && (v.Num? && s.maximum.Some? ==> NumValue(v.text) <= s.maximum.value)
    && (v.Arr? && s.items.Some? ==> forall i | 0 <= i < |v.items| :: WithinMaxima(v.items[i], s.items.value, re))
    && (v.Obj? && s.properties.Properties? ==>
          forall i | 0 <= i < |s.properties.list| && Has(v.fields, s.properties.list[i].name) ::
            WithinMaxima(Get(v.fields, s.properties.list[i].name), s.properties.list[i].schema, re))
  }

  lemma {:induction false} PlainFlat(s: Schema)
    requires Plain(s)
    ensures FlatConstants(s)
    decreases s
  {
    hide NoObjects;
    if s.anyOf.AnyOf? {
      forall i | 0 <= i < |s.anyOf.options| ensures FlatConstants(s.anyOf.options[i]) { PlainFlat(s.anyOf.options[i]); }
    }
    if s.items.Some? { PlainFlat(s.items.value); }
    if s.properties.Properties? {
      forall i | 0 <= i < |s.properties.list|
        ensures FlatConstants(s.properties.list[i].schema)
      {
        PlainFlat(s.properties.list[i].schema);
      }
    }
  }

  /** On plain schemas, JSON Schema asks what the validator asks, and the maxima. */
  lemma {:induction false} StandardIff(v: Value, s: Schema, re: Matcher)
    requires Plain(s)
    ensures Standard(v, s, re) <==> Satisfies(v, s, re) && WithinMaxima(v, s, re)
    decreases s, 1
  {
    hide MatchesType, ContentsStandard, ContentsSatisfy, SameText, Equal, NoObjects;
    if s.anyOf.AnyOf? {
      forall i | 0 <= i < |s.anyOf.options|
        ensures Standard(v, s.anyOf.options[i], re)
           <==> Satisfies(v, s.anyOf.options[i], re) && WithinMaxima(v, s.anyOf.options[i], re)
      {
        StandardIff(v, s.anyOf.options[i], re);
      }
      NothingElse(v, s.anyOf, re);
    } else {
      PlainFlat(s);
      ConstantsAgree(v, s);
      ContentsIff(v, s, re);
    }
  }

  lemma NothingElse(v: Value, choice: Choice, re: Matcher)
    ensures ContentsStandard(v, ANY.(anyOf := choice), re)
  {
  }

  lemma {:induction false} ContentsIff(v: Value, s: Schema, re: Matcher)
    requires Plain(s) && s.anyOf.NoChoice?
    ensures ContentsStandard(v, s, re) <==> ContentsSatisfy(v, s, re) && WithinMaxima(v, s, re)
    decreases s, 0
  {
    hide NumValue, Has, Get, Satisfies, Standard, Declared, NoObjects;
    if v.Arr? && s.items.Some? {
      forall i | 0 <= i < |v.items|
        ensures Standard(v.items[i], s.items.value, re)
           <==> Satisfies(v.items[i], s.items.value, re) && WithinMaxima(v.items[i], s.items.value, re)
      {
        StandardIff(v.items[i], s.items.value, re);
      }
    }
    if v.Obj? && s.properties.Properties? {
      forall i | 0 <= i < |s.properties.list|
        ensures var x, t := Get(v.fields, s.properties.list[i].name), s.properties.list[i].schema;
                Standard(x, t, re) <==> Satisfies(x, t, re) && WithinMaxima(x, t, re)
      {
        StandardIff(Get(v.fields, s.properties.list[i].name), s.properties.list[i].schema, re);
      }
    }
  }

  ghost predicate NoMaxima(s: Schema) {
    && s.maximum.None?
    && (s.anyOf.AnyOf? ==> forall i | 0 <= i < |s.anyOf.options| :: NoMaxima(s.anyOf.options[i]))
    && (s.items.Some? ==> NoMaxima(s.items.value))
    && (s.properties.Properties? ==> forall i | 0 <= i < |s.properties.list| :: NoMaxima(s.properties.list[i].schema))
  }

  lemma {:induction false} NoMaximaWithin(v: Value, s: Schema, re: Matcher)
    requires NoMaxima(s) && Satisfies(v, s, re) && Plain(s)
    ensures WithinMaxima(v, s, re)
    decreases s
  {
    hide MatchesType, SameText, NumValue, Has, Get, Declared, NoObjects;
    if s.anyOf.AnyOf? {
      var i :| 0 <= i < |s.anyOf.options| && Satisfies(v, s.anyOf.options[i], re);
      NoMaximaWithin(v, s.anyOf.options[i], re);
    } else {
      if v.Arr? && s.items.Some? {
        forall i | 0 <= i < |v.items| ensures WithinMaxima(v.items[i], s.items.value, re) {
          NoMaximaWithin(v.items[i], s.items.value, re);
        }
      }
      if v.Obj? && s.properties.Properties? {
        forall i | 0 <= i < |s.properties.list| && Has(v.fields, s.properties.list[i].name)
          ensures WithinMaxima(Get(v.fields, s.properties.list[i].name), s.properties.list[i].schema, re)
        {
          NoMaximaWithin(Get(v.fields, s.properties.list[i].name), s.properties.list[i].schema, re);
        }
      }
    }
  }

  /** On plain schemas without maxima the validator is a JSON Schema validator. */
  lemma ReadingsAgree(v: Value, s: Schema, path: Path, re: Matcher)
    requires Valid(v) && Sound(s) && Plain(s) && NoMaxima(s)
    ensures Validate(v, s, path, re) == [] <==> Standard(v, s, re)
  {
    hide Satisfies, Standard, WithinMaxima, Plain, NoMaxima, Sound;
    ValidateIff(v, s, path, re);
    StandardIff(v, s, re);
    if Satisfies(v, s, re) { NoMaximaWithin(v, s, re); }
  }

  // ----- one input for each way in which they differ

  /** Beside `anyOf`, the validator does not look at `type`. */
  lemma SiblingsDropped(path: Path, re: Matcher)
    ensures var s := ANY.(anyOf := AnyOf([ANY]), types := ["string"]);
            Validate(Null, s, path, re) == [] && !Standard(Null, s, re)
  {
    var s := ANY.(anyOf := AnyOf([ANY]), types := ["string"]);
    assert Satisfies(Null, ANY, re);
    assert Satisfies(Null, s.anyOf.options[0], re);
    ValidateIff(Null, s, path, re);
    assert !MatchesType(Null, "string");
  }

  lemma MaximumIgnored(path: Path, re: Matcher)
    ensures var s := ANY.(maximum := Some(4.0));
            Validate(Num("9"), s, path, re) == [] && !Standard(Num("9"), s, re)
  {
    NineValue();
  }

  lemma NineValue()
    ensures IsNumber("9") && IsInteger("9") && NumValue("9") == 9.0
  {
    DecimalValue(9);
    assert Decimal(9) == "9";
  }

  /** Without properties, the validator does not look at `additionalProperties`. */
  lemma ClosedIgnored(path: Path, re: Matcher)
    ensures var s, v := ANY.(closed := true), Obj([Field("a", Null)]);
            Validate(v, s, path, re) == [] && !Standard(v, s, re)
  {
    var s, v := ANY.(closed := true), Obj([Field("a", Null)]);
    assert !Named(v.fields[0].key, s.properties);
  }

  /** The validator compares constants by their text, so the order of keys counts. */
  lemma KeyOrderCounts(path: Path, re: Matcher)
    ensures var a, b := Field("a", Null), Field("b", Null);
            var s, v := ANY.(konst := Some(Obj([a, b]))), Obj([b, a]);
            Validate(v, s, path, re) != [] && Standard(v, s, re)
  {
    var a, b := Field("a", Null), Field("b", Null);
    var s, v := ANY.(konst := Some(Obj([a, b]))), Obj([b, a]);
    assert CanonicalJson.Same(a.val, a.val) && CanonicalJson.Same(b.val, b.val);
    assert CanonicalJson.MatchIn(v.fields[0], [a, b]) by { assert [a, b][1] == b; }
    assert CanonicalJson.MatchIn(v.fields[1], [a, b]) by { assert [a, b][0] == a; }
    assert v.fields[0].key == "b" && v.fields[1].key == "a";
    assert CanonicalJson.Same(v, Obj([a, b]));
    TextsDiffer(a, b);
    hide CanonicalJson.Same, SameText;
    ValidateIff(v, s, path, re);
  }

  lemma TextsDiffer(a: Field, b: Field)
    requires a == Field("a", Null) && b == Field("b", Null)
    ensures !SameText(Obj([b, a]), Obj([a, b])) && Valid(Obj([b, a])) && Valid(Obj([a, b]))
  {
    SettledPair(a, b);
    SettledPair(b, a);
    assert [a, b][0] != [b, a][0];
  }

  lemma SettledPair(a: Field, b: Field)
    requires a.val == Null && b.val == Null
    ensures Settled(Obj([a, b])) == Obj([a, b])
  {
    assert [a, b][1..] == [b] && [b][1..] == [];
    assert SettledFields([]) == [] && SettledFields([b]) == [b];
  }

  // ----- the names of types

  /** What the validator asks of a schema that is a type name alone. */
  lemma TypeNames(v: Value, path: Path, re: Matcher)
    ensures Validate(v, ANY.(types := ["array"]), path, re) == [] <==> v.Arr?
    ensures Validate(v, ANY.(types := ["boolean"]), path, re) == [] <==> v.Bool?
    ensures Validate(v, ANY.(types := ["null"]), path, re) == [] <==> v.Null?
    ensures Validate(v, ANY.(types := ["number"]), path, re) == [] <==> v.Num?
    ensures Validate(v, ANY.(types := ["object"]), path, re) == [] <==> v.Obj?
    ensures Validate(v, ANY.(types := ["string"]), path, re) == [] <==> v.Str?
    ensures Validate(v, ANY.(types := ["integer"]), path, re) == []
       <==> v.Num? && NumValue(v.text) == NumValue(v.text).Floor as real
  {
    hide NumValue, MatchesType;
    TypeAlone(v, "array", path, re);
    TypeAlone(v, "boolean", path, re);
    TypeAlone(v, "null", path, re);
    TypeAlone(v, "number", path, re);
    TypeAlone(v, "object", path, re);
    TypeAlone(v, "string", path, re);
    TypeAlone(v, "integer", path, re);
    TypeTable(v);
  }

  lemma TypeAlone(v: Value, t: string, path: Path, re: Matcher)
    ensures Validate(v, ANY.(types := [t]), path, re) == [] <==> MatchesType(v, t)
  {
    hide MatchesType, NumValue;
    var s := ANY.(types := [t]);
    assert ValidateContents(v, s, path, re) == [];
    assert SomeType(v, s.types) <==> MatchesType(v, s.types[0]);
  }

  lemma TypeTable(v: Value)
    ensures MatchesType(v, "array") <==> v.Arr?
    ensures MatchesType(v, "boolean") <==> v.Bool?
    ensures MatchesType(v, "null") <==> v.Null?
    ensures MatchesType(v, "number") <==> v.Num?
    ensures MatchesType(v, "object") <==> v.Obj?
    ensures MatchesType(v, "string") <==> v.Str?
    ensures MatchesType(v, "integer") <==> v.Num? && NumValue(v.text) == NumValue(v.text).Floor as real
  {
    hide NumValue;
  }

  /** A name the validator does not know accepts everything. */
  lemma UnknownType(v: Value, t: string, path: Path, re: Matcher)
    requires t !in ["array", "boolean", "null", "number", "object", "string", "integer"]
    ensures Validate(v, ANY.(types := [t]), path, re) == []
  {
    TypeAlone(v, t, path, re);
    var names := ["array", "boolean", "null", "number", "object", "string", "integer"];
    assert forall i | 0 <= i < 7 :: t != names[i];
  }

  /** One and a half is a number and no integer. */
  lemma FractionIsNoInteger(path: Path, re: Matcher)
    ensures Validate(Num("1.5"), ANY.(types := ["integer"]), path, re) != []
    ensures Validate(Num("1.5"), ANY.(types := ["number"]), path, re) == []
  {
    OneAndAHalf();
    hide NumValue, Validate, IsNumber;
    assert 1.5.Floor == 1;
    TypeNames(Num("1.5"), path, re);
  }
}
