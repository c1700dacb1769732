/** packages/fixtures/conformance/harness.ts: `mapBrToBeadListResponse`, from raw
    `br --json` output to the daemon's bead list. */
module BrMapper {
  import opened Sorting
  import opened Json
  import opened Records
  import opened Numbers
  import opened Schema
  import JsonText

  const SCHEMA_VERSION := "1"

  // ----- the mapper

  predicate IsText(v: Value) {
    v.Str? && v.s != ""
  }

  /** A raw issue that becomes a bead. */
  predicate Acceptable(v: Value) {
    && v.Obj?
    && IsText(Get(v.fields, "id"))
    && IsText(Get(v.fields, "title"))
    && Get(v.fields, "status").Str?
    && Get(v.fields, "priority").Num? && IsInteger(Get(v.fields, "priority").text)
    && Get(v.fields, "issue_type").Str?
  }

  const BEAD_NAMES := ["schemaVersion", "id", "title", "status", "priority", "issueType",
                       "description", "sourceRepo", "createdAt", "updatedAt", "createdBy"]

  /** The properties of a raw issue that are read. */
  const RAW_NAMES := ["id", "title", "status", "priority", "issue_type",
                      "description", "source_repo", "created_at", "updated_at", "created_by"]

  function BeadSlots(raw: seq<Field>): (r: seq<Value>)
    ensures |r| == 11
  {
    [Num(SCHEMA_VERSION), Get(raw, RAW_NAMES[0]), Get(raw, RAW_NAMES[1]), Get(raw, RAW_NAMES[2]),
        Get(raw, RAW_NAMES[3]),
     Get(raw, RAW_NAMES[4]), Text(Get(raw, RAW_NAMES[5])), Text(Get(raw, RAW_NAMES[6])),
     Text(Get(raw, RAW_NAMES[7])), Text(Get(raw, RAW_NAMES[8])), Text(Get(raw, RAW_NAMES[9]))]
  }

  function MapIssue(raw: seq<Field>): Option<Value> {
    if !IsText(Get(raw, "id")) then None
    else if !IsText(Get(raw, "title")) then None
    else if !Get(raw, "status").Str? then None
    else if !Get(raw, "priority").Num? || !IsInteger(Get(raw, "priority").text) then None
    else if !Get(raw, "issue_type").Str? then None
    else Some(Obj(Present(BEAD_NAMES, BeadSlots(raw))))
  }

  function Issues(raw: seq<Field>): seq<Value> {
    if Get(raw, "issues").Arr? then Get(raw, "issues").items else []
  }

  /** The bead an acceptable issue becomes. */
  function BeadOf(issue: Value): Value {
    if issue.Obj? then Obj(Present(BEAD_NAMES, BeadSlots(issue.fields))) else issue
  }

  function Beads(issues: seq<Value>): (r: seq<Value>)
    ensures |r| == |issues| && forall i | 0 <= i < |issues| :: r[i] == BeadOf(issues[i])
  {
    if issues == [] then [] else [BeadOf(issues[0])] + Beads(issues[1..])
  }

  function Accepted(raw: seq<Field>): seq<Value> {
    Filtered(Issues(raw), Acceptable)
  }

  const PAGE_NAMES := ["hasMore", "total", "dropped"]

  function PageSlots(raw: seq<Field>, dropped: nat): (r: seq<Value>)
    ensures |r| == 3
  {
    var hasMore, total := Get(raw, "has_more"), Get(raw, "total");
    [if hasMore.Bool? then hasMore else Bool(false),
     if total.Num? && IsInteger(total.text) && NumValue(total.text) >= 0.0 then total else Undefined,
     if dropped > 0 then Num(Decimal(dropped)) else Undefined]
  }

  const LIST_NAMES := ["items", "page"]

  function ListSlots(beads: seq<Value>, page: seq<Value>): seq<Value>
    requires |page| == 3
  {
    [Arr(beads), Obj(Present(PAGE_NAMES, page))]
  }

  /** The bead list: the acceptable issues, in order, and a page that accounts
      for the others. */
  function Response(raw: seq<Field>): Value {
    Obj(Present(LIST_NAMES, ListSlots(Beads(Accepted(raw)), PageSlots(raw, |Issues(raw)| - |Accepted(raw)|))))
  }

  lemma MapIssueIff(v: Value)
    ensures Acceptable(v) <==> v.Obj? && MapIssue(v.fields).Some?
    ensures Acceptable(v) ==> MapIssue(v.fields) == Some(BeadOf(v))
  {
    hide BeadSlots, Present;
  }

  /** What one issue adds to the beads. */
  lemma IssueStep(issues: seq<Value>, i: nat)
    requires i < |issues|
    ensures var kept, v := Filtered(issues[..i], Acceptable), issues[i];
            && Beads(Filtered(issues[..i + 1], Acceptable))
                == (if Acceptable(v) then Beads(kept) + [BeadOf(v)] else Beads(kept))
            && (Acceptable(v) <==> v.Obj? && MapIssue(v.fields).Some?)
            && (Acceptable(v) ==> MapIssue(v.fields) == Some(BeadOf(v)))
  {
    hide MapIssue, Acceptable, BeadOf;
    var kept, v := Filtered(issues[..i], Acceptable), issues[i];
    assert issues[..i + 1] == issues[..i] + [v];
    FilteredAppend(issues[..i], [v], Acceptable);
    FilteredOne(v, Acceptable);
    assert kept + [] == kept;
    assert Beads(kept + [v]) == Beads(kept) + [BeadOf(v)];
    MapIssueIff(v);
  }

  method MapBrToBeadListResponse(raw: seq<Field>) returns (response: Value)
    ensures response == Response(raw)
  {
    hide MapIssue, Acceptable, BeadOf, Filtered, Get, IsInteger, NumValue;
    var issuesRaw := if Get(raw, "issues").Arr? then Get(raw, "issues").items else [];
    var items: seq<Value> := [];
    var dropped := 0;
    assert issuesRaw[..0] == [] && Beads([]) == [];
    assert Filtered([], Acceptable) == [] by { FilteredAll([], Acceptable); }
    for i := 0 to |issuesRaw|
      invariant items == Beads(Filtered(issuesRaw[..i], Acceptable))
      invariant dropped == i - |items|
    {
      var entry := issuesRaw[i];
      IssueStep(issuesRaw, i);
      if !entry.Obj? {
        dropped := dropped + 1;
        continue;
      }
      var bead := MapIssue(entry.fields);
      if bead.None? {
        dropped := dropped + 1;
        continue;
      }
      items := items + [bead.value];
    }
    assert issuesRaw[..|issuesRaw|] == issuesRaw;
    var hasMore, total := Get(raw, "has_more"), Get(raw, "total");
    var page := [if hasMore.Bool? then hasMore else Bool(false), Undefined, Undefined];
    if total.Num? && IsInteger(total.text) && NumValue(total.text) >= 0.0 {
      page := page[1 := total];
    }
    if dropped > 0 {
      page := page[2 := Num(Decimal(dropped))];
    }
    assert page == PageSlots(raw, dropped);
    response := Obj(Present(LIST_NAMES, ListSlots(items, page)));
  }

  // ----- schemas of the response

  function Typed(t: string): Schema {
    ANY.(types := [t])
  }

  function AtLeast(t: string, minimum: real): Schema {
    Typed(t).(minimum := Some(minimum))
  }

  function Named(names: seq<string>, schemas: seq<Schema>): (r: seq<Property>)
    requires |names| == |schemas|
    ensures |r| == |names| && forall i | 0 <= i < |names| :: r[i] == Property(names[i], schemas[i])
  {
    if names == [] then [] else [Property(names[0], schemas[0])] + Named(names[1..], schemas[1..])
  }

  /** An object whose first `required` names are required. */
  function ObjectSchema(names: seq<string>, schemas: seq<Schema>, required: nat, closed: bool): Schema
    requires required <= |names| == |schemas|
  {
    Typed("object").(required := names[..required], properties := Properties(Named(names, schemas)), closed := closed)
  }

  const PAGE_SCHEMAS := [Typed("boolean"), AtLeast("integer", 0.0), AtLeast("integer", 1.0)]

  function ListSchema(beadSchemas: seq<Schema>, closed: bool): Schema
    requires |beadSchemas| == 11
  {
    ObjectSchema(LIST_NAMES,
      [Typed("array").(items := Some(ObjectSchema(BEAD_NAMES, beadSchemas, 6, closed))),
       ObjectSchema(PAGE_NAMES, PAGE_SCHEMAS, 1, closed)],
      2, closed)
  }

  const TEXT := Typed("string")

  /** The types of the `BeadShape` interface. */
  const SHAPE := [Typed("integer"), TEXT, TEXT, TEXT, Typed("integer"), TEXT, TEXT, TEXT, TEXT, TEXT, TEXT]

  const STATUSES := [Str("open"), Str("in_progress"), Str("blocked"), Str("closed"), Str("deleted")]
  const ISSUE_TYPES := [Str("task"), Str("bug"), Str("feature"), Str("epic"), Str("question"), Str("docs")]

  /** The bead properties in schemas/br.schema.json. */
  const BR := [AtLeast("integer", 1.0), TEXT.(minLength := Some(1)), TEXT.(minLength := Some(1)),
               ANY.(enum := Some(STATUSES)),
               AtLeast("integer", 0.0).(maximum := Some(4.0)), ANY.(enum := Some(ISSUE_TYPES)),
               TEXT, TEXT, TEXT, TEXT, TEXT]

  // ----- an object against its schema, slot by slot

  ghost predicate SlotsFit(slots: seq<Value>, schemas: seq<Schema>, re: Matcher)
    requires |slots| == |schemas|
  {
    forall i | 0 <= i < |slots| && !slots[i].Undefined? :: Satisfies(slots[i], schemas[i], re)
  }

  lemma ObjectIff(names: seq<string>, slots: seq<Value>, schemas: seq<Schema>, required: nat, closed: bool, re: Matcher)
    requires required <= |names| == |slots| == |schemas| && Distinct(names)
    requires forall i | 0 <= i < required :: !slots[i].Undefined?
    ensures Satisfies(Obj(Present(names, slots)), ObjectSchema(names, schemas, required, closed), re)
       <==> SlotsFit(slots, schemas, re)
  {
    var s := ObjectSchema(names, schemas, required, closed);
    var fields := Present(names, slots);
    forall i | 0 <= i < |names|
      ensures (Has(fields, names[i]) <==> !slots[i].Undefined?) && Get(fields, names[i]) == slots[i]
    {
      PresentGet(names, slots, i);
    }
    assert s.types[0] in s.types && MatchesType(Obj(fields), s.types[0]);
    forall k | k in s.required
      ensures Has(fields, k)
    {
      var i :| 0 <= i < required && names[..required][i] == k;
      assert names[i] == k;
    }
    PresentMembers(names, slots);
    forall i | 0 <= i < |fields|
      ensures Declared(fields[i].key, s.properties.list)
    {
      assert fields[i] in fields;
      var k :| 0 <= k < |names| && fields[i] == Field(names[k], slots[k]);
      assert s.properties.list[k].name == fields[i].key;
    }
    assert Satisfies(Obj(fields), s, re) <==> ContentsSatisfy(Obj(fields), s, re);
    ObjectContents(Obj(fields), names, slots, schemas, s, re);
  }

  lemma ObjectContents(v: Value, names: seq<string>, slots: seq<Value>, schemas: seq<Schema>, s: Schema, re: Matcher)
    requires v.Obj? && |names| == |slots| == |schemas| && s.properties == Properties(Named(names, schemas))
    requires forall i | 0 <= i < |names| ::
        (Has(v.fields, names[i]) <==> !slots[i].Undefined?) && Get(v.fields, names[i]) == slots[i]
    requires forall k | k in s.required :: Has(v.fields, k)
    requires forall i | 0 <= i < |v.fields| :: Declared(v.fields[i].key, s.properties.list)
    ensures ContentsSatisfy(v, s, re) <==> SlotsFit(slots, schemas, re)
  {
    hide Has, Get, Declared, Satisfies, NumValue;
    if ContentsSatisfy(v, s, re) {
      forall i | 0 <= i < |slots| && !slots[i].Undefined?
        ensures Satisfies(slots[i], schemas[i], re)
      {
        assert s.properties.list[i] == Property(names[i], schemas[i]);
        assert Has(v.fields, s.properties.list[i].name);
      }
    }
  }

  // ----- the slots of the bead list

  lemma NamesDistinct()
    ensures Distinct(BEAD_NAMES) && Distinct(PAGE_NAMES) && Distinct(LIST_NAMES)
  {
    assert forall i | 0 <= i < 11 :: |BEAD_NAMES[i]| == [13, 2, 5, 6, 8, 9, 11, 10, 9, 9, 9][i];
    assert BEAD_NAMES[5][0] == 'i' && BEAD_NAMES[8][0] == 'c' && BEAD_NAMES[9][0] == 'u' && BEAD_NAMES[10][0] == 'c';
    assert BEAD_NAMES[8][7] == 'A' && BEAD_NAMES[10][7] == 'B';
    assert PAGE_NAMES[0][0] == 'h' && PAGE_NAMES[1][0] == 't' && PAGE_NAMES[2][0] == 'd';
    assert LIST_NAMES[0][0] == 'i' && LIST_NAMES[1][0] == 'p';
  }

  /** A schema with one type and perhaps a minimum or a minimal length. */
  lemma TypedFits(v: Value, s: Schema, re: Matcher)
    requires |s.types| == 1
        && s == ANY.(types := s.types, minimum := s.minimum, maximum := s.maximum, minLength := s.minLength)
    ensures Satisfies(v, s, re) <==>
            && MatchesType(v, s.types[0])
            && (v.Num? && s.minimum.Some? ==> s.minimum.value <= NumValue(v.text))
            && (v.Str? && s.minLength.Some? ==> s.minLength.value <= |v.s|)
  {
    assert s.types[0] in s.types;
    assert forall t | t in s.types :: t == s.types[0];
  }

  lemma TextIn(v: Value, values: seq<Value>, re: Matcher)
    requires v.Str? && forall i | 0 <= i < |values| :: values[i].Str?
    ensures Satisfies(v, ANY.(enum := Some(values)), re) <==> v in values
  {
    var s := ANY.(enum := Some(values));
    assert ContentsSatisfy(v, s, re);
    if v in values {
      var i :| 0 <= i < |values| && values[i] == v;
      assert JsonText.Settled(values[i]) == values[i];
      assert SameText(v, s.enum.value[i]);
    }
    if Satisfies(v, s, re) {
      var i :| 0 <= i < |s.enum.value| && SameText(v, s.enum.value[i]);
      assert values[i] == v;
    }
  }

  lemma PageFits(raw: seq<Field>, dropped: nat, re: Matcher)
    ensures SlotsFit(PageSlots(raw, dropped), PAGE_SCHEMAS, re)
  {
    hide Get, NumValue, IsInteger, Decimal, Satisfies;
    var slots := PageSlots(raw, dropped);
    DecimalValue(dropped);
    TypedFits(slots[0], PAGE_SCHEMAS[0], re);
    TypedFits(slots[1], PAGE_SCHEMAS[1], re);
    TypedFits(slots[2], PAGE_SCHEMAS[2], re);
  }

  lemma VersionNumber()
    ensures IsNumber(SCHEMA_VERSION) && IsInteger(SCHEMA_VERSION) && NumValue(SCHEMA_VERSION) == 1.0
  {
    DecimalValue(1);
    assert Decimal(1) == "1";
  }

  lemma OptionalFit(raw: seq<Field>, schemas: seq<Schema>, i: nat, re: Matcher)
    requires |schemas| == 11 && 6 <= i < 11 && schemas[i] == TEXT
    ensures !BeadSlots(raw)[i].Undefined? ==> Satisfies(BeadSlots(raw)[i], schemas[i], re)
  {
    hide Get, Satisfies;
    TypedFits(BeadSlots(raw)[i], schemas[i], re);
  }

  lemma ShapeFits(v: Value, re: Matcher)
    requires Acceptable(v)
    ensures SlotsFit(BeadSlots(v.fields), SHAPE, re)
  {
    hide Get, Satisfies, NumValue, IsInteger;
    VersionNumber();
    var slots := BeadSlots(v.fields);
    forall i | 0 <= i < 6
      ensures Satisfies(slots[i], SHAPE[i], re)
    {
      TypedFits(slots[i], SHAPE[i], re);
    }
    forall i | 6 <= i < 11
      ensures !slots[i].Undefined? ==> Satisfies(slots[i], SHAPE[i], re)
    {
      OptionalFit(v.fields, SHAPE, i, re);
    }
  }

  /** What br.schema.json asks beyond the shape. */
  predicate Known(issue: Value) {
    && issue.Obj?
    && Get(issue.fields, "status") in STATUSES
    && Get(issue.fields, "issue_type") in ISSUE_TYPES
    && Get(issue.fields, "priority").Num? && NumValue(Get(issue.fields, "priority").text) >= 0.0
  }

  lemma BrFitsIff(v: Value, re: Matcher)
    requires Acceptable(v)
    ensures SlotsFit(BeadSlots(v.fields), BR, re) <==> Known(v)
  {
    hide Get, Satisfies, NumValue, IsInteger;
    VersionNumber();
    var slots := BeadSlots(v.fields);
    TypedFits(slots[0], BR[0], re);
    TypedFits(slots[1], BR[1], re);
    TypedFits(slots[2], BR[2], re);
    TextIn(slots[3], STATUSES, re);
    TypedFits(slots[4], BR[4], re);
    TextIn(slots[5], ISSUE_TYPES, re);
    forall i | 6 <= i < 11
      ensures !slots[i].Undefined? ==> Satisfies(slots[i], BR[i], re)
    {
      OptionalFit(v.fields, BR, i, re);
    }
  }

  // ----- the response as a whole

  lemma ItemsIff(items: seq<Value>, s: Schema, re: Matcher)
    ensures Satisfies(Arr(items), Typed("array").(items := Some(s)), re)
       <==> forall i | 0 <= i < |items| :: Satisfies(items[i], s, re)
  {
    var t := Typed("array").(items := Some(s));
    assert t.types[0] in t.types && MatchesType(Arr(items), t.types[0]);
    assert Satisfies(Arr(items), t, re) <==> ContentsSatisfy(Arr(items), t, re);
  }

  lemma AcceptedAcceptable(raw: seq<Field>)
    ensures forall i | 0 <= i < |Accepted(raw)| :: Acceptable(Accepted(raw)[i])
  {
    hide Acceptable;
    FilteredMembers(Issues(raw), Acceptable);
    forall i | 0 <= i < |Accepted(raw)|
      ensures Acceptable(Accepted(raw)[i])
    {
      assert Accepted(raw)[i] in Accepted(raw);
    }
  }

  lemma BeadIff(v: Value, schemas: seq<Schema>, closed: bool, re: Matcher)
    requires Acceptable(v) && |schemas| == 11
    ensures Satisfies(BeadOf(v), ObjectSchema(BEAD_NAMES, schemas, 6, closed), re)
       <==> SlotsFit(BeadSlots(v.fields), schemas, re)
  {
    hide Satisfies, Present, ObjectSchema, SlotsFit, IsInteger, Get;
    NamesDistinct();
    ObjectIff(BEAD_NAMES, BeadSlots(v.fields), schemas, 6, closed, re);
  }

  /** The response satisfies a list schema exactly when every bead satisfies the
      schema of the items. */
  lemma ResponseIff(raw: seq<Field>, schemas: seq<Schema>, closed: bool, re: Matcher)
    requires |schemas| == 11
    ensures Satisfies(Response(raw), ListSchema(schemas, closed), re)
       <==> forall i | 0 <= i < |Accepted(raw)| ::
              Satisfies(BeadOf(Accepted(raw)[i]), ObjectSchema(BEAD_NAMES, schemas, 6, closed), re)
  {
    hide Satisfies, Present, Filtered, BeadOf, PageSlots;
    var kept := Accepted(raw);
    var beads, page := Beads(kept), PageSlots(raw, |Issues(raw)| - |kept|);
    var beadSchema, pageSchema :=
        ObjectSchema(BEAD_NAMES, schemas, 6, closed), ObjectSchema(PAGE_NAMES, PAGE_SCHEMAS, 1, closed);
    var itemsSchema := Typed("array").(items := Some(beadSchema));
    NamesDistinct();
    PageFits(raw, |Issues(raw)| - |kept|, re);
    PageDefined(raw, |Issues(raw)| - |kept|);
    ObjectIff(PAGE_NAMES, page, PAGE_SCHEMAS, 1, closed, re);
    ItemsIff(beads, beadSchema, re);
    TwoSlots(beads, page, itemsSchema, pageSchema, closed, re);
  }

  lemma PageDefined(raw: seq<Field>, dropped: nat)
    ensures !PageSlots(raw, dropped)[0].Undefined?
  {
  }

  lemma TwoSlots(beads: seq<Value>, page: seq<Value>, itemsSchema: Schema, pageSchema: Schema, closed: bool,
      re: Matcher)
    requires |page| == 3
    ensures Satisfies(Obj(Present(LIST_NAMES, ListSlots(beads, page))),
        ObjectSchema(LIST_NAMES, [itemsSchema, pageSchema], 2, closed), re)
       <==> Satisfies(Arr(beads), itemsSchema, re) && Satisfies(Obj(Present(PAGE_NAMES, page)), pageSchema, re)
  {
    NamesDistinct();
    var slots, schemas := ListSlots(beads, page), [itemsSchema, pageSchema];
    hide Satisfies, Present;
    assert forall i | 0 <= i < 2 :: !slots[i].Undefined?;
    ObjectIff(LIST_NAMES, slots, schemas, 2, closed, re);
    assert SlotsFit(slots, schemas, re) <==> Satisfies(slots[0], schemas[0], re) && Satisfies(slots[1], schemas[1], re);
  }

  lemma {:induction false} NamedSound(names: seq<string>, schemas: seq<Schema>, required: nat, closed: bool)
    requires required <= |names| == |schemas| && forall i | 0 <= i < |schemas| :: Sound(schemas[i])
    ensures Sound(ObjectSchema(names, schemas, required, closed))
  {
    hide ObjectSchema;
    var s := ObjectSchema(names, schemas, required, closed);
    NamedParts(names, schemas, required, closed);
    forall i | 0 <= i < |s.properties.list|
      ensures Sound(s.properties.list[i].schema)
    {
      assert s.properties.list[i].schema == schemas[i];
    }
  }

  lemma NamedParts(names: seq<string>, schemas: seq<Schema>, required: nat, closed: bool)
    requires required <= |names| == |schemas|
    ensures var s := ObjectSchema(names, schemas, required, closed);
            && s.anyOf.NoChoice? && s.konst.None? && s.enum.None? && s.items.None?
            && s.properties == Properties(Named(names, schemas))
  {
  }

  lemma ListSound(schemas: seq<Schema>, closed: bool)
    requires |schemas| == 11 && forall i | 0 <= i < 11 :: Sound(schemas[i])
    ensures Sound(ListSchema(schemas, closed))
  {
    NamedSound(BEAD_NAMES, schemas, 6, closed);
    NamedSound(PAGE_NAMES, PAGE_SCHEMAS, 1, closed);
    var bead := ObjectSchema(BEAD_NAMES, schemas, 6, closed);
    var parts := [Typed("array").(items := Some(bead)), ObjectSchema(PAGE_NAMES, PAGE_SCHEMAS, 1, closed)];
    hide ObjectSchema;
    assert Sound(parts[0]) && Sound(parts[1]);
    NamedSound(LIST_NAMES, parts, 2, closed);
  }

  lemma SchemasSound()
    ensures forall i | 0 <= i < 11 :: Sound(SHAPE[i]) && Sound(BR[i])
  {
    assert forall i | 0 <= i < 5 :: Valid(STATUSES[i]);
    assert forall i | 0 <= i < 6 :: Valid(ISSUE_TYPES[i]);
  }

  lemma PresentValid(names: seq<string>, slots: seq<Value>)
    requires |names| == |slots| && Distinct(names) && forall i | 0 <= i < |slots| :: Valid(slots[i])
    ensures Valid(Obj(Present(names, slots)))
  {
    PresentMembers(names, slots);
    var fields := Present(names, slots);
    forall k | 0 <= k < |fields|
      ensures Valid(fields[k].val)
    {
      assert fields[k] in fields;
      var i :| 0 <= i < |names| && fields[k] == Field(names[i], slots[i]) && !slots[i].Undefined?;
    }
  }

  lemma SlotsValid(raw: seq<Field>)
    requires Valid(Obj(raw))
    ensures forall i | 0 <= i < 11 :: Valid(BeadSlots(raw)[i])
  {
    hide *;
    EachValid(raw);
    var r := BeadSlots(raw);
    forall i | 0 <= i < 11
      ensures Valid(r[i])
    {
      assert i == 0 || i == 1 || i == 2 || i == 3 || i == 4 || i == 5 || i == 6 || i == 7 || i == 8 || i == 9
          || i == 10;
    }
  }

  lemma EachValid(raw: seq<Field>)
    requires Valid(Obj(raw))
    ensures var r := BeadSlots(raw);
            && Valid(r[0]) && Valid(r[1]) && Valid(r[2]) && Valid(r[3]) && Valid(r[4]) && Valid(r[5])
            && Valid(r[6]) && Valid(r[7]) && Valid(r[8]) && Valid(r[9]) && Valid(r[10])
  {
    VersionNumber();
    TextsValid(raw);
    hide Get, Text, Valid, IsNumber, RAW_NAMES;
  }

  lemma TextsValid(raw: seq<Field>)
    requires Valid(Obj(raw))
    ensures forall key :: Valid(Get(raw, key)) && Valid(Text(Get(raw, key)))
  {
    forall key
      ensures Valid(Get(raw, key)) && Valid(Text(Get(raw, key)))
    {
      GetValid(raw, key);
    }
  }

  lemma BeadValid(v: Value)
    requires Valid(v)
    ensures Valid(BeadOf(v))
  {
    hide BeadSlots, Present;
    if v.Obj? {
      NamesDistinct();
      SlotsValid(v.fields);
      PresentValid(BEAD_NAMES, BeadSlots(v.fields));
    }
  }

  lemma PageValid(raw: seq<Field>, dropped: nat)
    requires Valid(Obj(raw))
    ensures Valid(Obj(Present(PAGE_NAMES, PageSlots(raw, dropped))))
  {
    NamesDistinct();
    GetValid(raw, "total");
    DecimalValue(dropped);
    hide Get, IsNumber, IsInteger, NumValue, Present, Decimal;
    PresentValid(PAGE_NAMES, PageSlots(raw, dropped));
  }

  lemma BeadsValid(raw: seq<Field>)
    requires Valid(Obj(raw))
    ensures forall i | 0 <= i < |Accepted(raw)| :: Valid(BeadOf(Accepted(raw)[i]))
  {
    var kept := Accepted(raw);
    GetValid(raw, "issues");
    FilteredMembers(Issues(raw), Acceptable);
    hide Get, Acceptable, BeadOf;
    forall i | 0 <= i < |kept|
      ensures Valid(BeadOf(kept[i]))
    {
      assert kept[i] in kept;
      BeadValid(kept[i]);
    }
  }

  lemma ResponseValid(raw: seq<Field>)
    requires Valid(Obj(raw))
    ensures Valid(Response(raw))
  {
    hide Present, PageSlots, BeadOf, Filtered;
    NamesDistinct();
    BeadsValid(raw);
    PageValid(raw, |Issues(raw)| - |Accepted(raw)|);
    var slots := ListSlots(Beads(Accepted(raw)), PageSlots(raw, |Issues(raw)| - |Accepted(raw)|));
    assert Valid(slots[0]) && Valid(slots[1]);
    PresentValid(LIST_NAMES, slots);
  }

  // ----- the main results

  /** On any raw input, the response validates under the types of
      `BeadListResponseShape`, with no property beyond them. */
  lemma ResponseHasShape(raw: seq<Field>, re: Matcher)
    requires Valid(Obj(raw))
    ensures Validate(Response(raw), ListSchema(SHAPE, true), [], re) == []
  {
    hide Satisfies, Validate, ObjectSchema, Response, Acceptable, BeadOf, SlotsFit, BeadSlots;
    ResponseValid(raw);
    SchemasSound();
    ListSound(SHAPE, true);
    ValidateIff(Response(raw), ListSchema(SHAPE, true), [], re);
    ResponseIff(raw, SHAPE, true, re);
    AcceptedAcceptable(raw);
    forall i | 0 <= i < |Accepted(raw)|
      ensures Satisfies(BeadOf(Accepted(raw)[i]), ObjectSchema(BEAD_NAMES, SHAPE, 6, true), re)
    {
      AcceptableObj(Accepted(raw)[i]);
      ShapeFits(Accepted(raw)[i], re);
      BeadIff(Accepted(raw)[i], SHAPE, true, re);
    }
  }

  lemma AcceptableObj(v: Value)
    requires Acceptable(v)
    ensures v.Obj?
  {
  }

  /** It validates under the payload part of schemas/br.schema.json exactly when
      every accepted issue has a known status, a known type and a priority that
      is not negative: the mapper itself lets others through. */
  lemma ResponseFitsBrSchemaIff(raw: seq<Field>, re: Matcher)
    requires Valid(Obj(raw))
    ensures Validate(Response(raw), ListSchema(BR, false), [], re) == []
       <==> forall i | 0 <= i < |Accepted(raw)| :: Known(Accepted(raw)[i])
  {
    hide Satisfies, Validate, ObjectSchema, Response, Acceptable, BeadOf, SlotsFit, BeadSlots, Known;
    ResponseValid(raw);
    SchemasSound();
    ListSound(BR, false);
    ValidateIff(Response(raw), ListSchema(BR, false), [], re);
    ResponseIff(raw, BR, false, re);
    AcceptedAcceptable(raw);
    forall i | 0 <= i < |Accepted(raw)|
      ensures Satisfies(BeadOf(Accepted(raw)[i]), ObjectSchema(BEAD_NAMES, BR, 6, false), re) <==>
          Known(Accepted(raw)[i])
    {
      AcceptableObj(Accepted(raw)[i]);
      BrFitsIff(Accepted(raw)[i], re);
      BeadIff(Accepted(raw)[i], BR, false, re);
    }
  }

  /** Every issue is accounted for: it is an item or it is counted as dropped, and
      items keep the order of the issues. */
  lemma NothingVanishes(raw: seq<Field>)
    ensures Response(raw).Obj? && Get(Response(raw).fields, "items").Arr? && Get(Response(raw).fields, "page").Obj?
    ensures var items := Get(Response(raw).fields, "items").items;
            var dropped := Get(Get(Response(raw).fields, "page").fields, "dropped");
            && items == Beads(Filtered(Issues(raw), Acceptable))
            && |items| <= |Issues(raw)|
            && (if |items| == |Issues(raw)| then dropped.Undefined?
                else dropped.Num? && NumValue(dropped.text) == (|Issues(raw)| - |items|) as real)
  {
    NamesDistinct();
    hide Get, Present, Filtered, NumValue, Decimal, IsInteger, Acceptable, BeadOf;
    var kept := Accepted(raw);
    var page := PageSlots(raw, |Issues(raw)| - |kept|);
    var slots := ListSlots(Beads(kept), page);
    DecimalValue(|Issues(raw)| - |kept|);
    PresentGet(LIST_NAMES, slots, 0);
    PresentGet(LIST_NAMES, slots, 1);
    PresentGet(PAGE_NAMES, page, 2);
    assert LIST_NAMES[0] == "items" && LIST_NAMES[1] == "page" && PAGE_NAMES[2] == "dropped";
  }
}
