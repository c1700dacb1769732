/** packages/fixtures/conformance/schemas/br.schema.json, its payload part, as JSON
    Schema reads it, against the responses of `mapBrToBeadListResponse`. */
module BrSchema {
  import opened Sorting
  import opened Json
  import opened Numbers
  import opened Records
  import opened Schema
  import opened BrMapper
  import JsonSchema

  // ----- the schema is plain

  lemma ObjectPlain(names: seq<string>, schemas: seq<Schema>, required: nat, closed: bool)
    requires required <= |names| == |schemas| && forall i | 0 <= i < |schemas| :: JsonSchema.Plain(schemas[i])
    ensures JsonSchema.Plain(ObjectSchema(names, schemas, required, closed))
  {
    var s := ObjectSchema(names, schemas, required, closed);
    forall i | 0 <= i < |s.properties.list|
      ensures JsonSchema.Plain(s.properties.list[i].schema)
    {
      assert s.properties.list[i].schema == schemas[i];
    }
  }

  lemma ListPlain()
    ensures JsonSchema.Plain(ListSchema(BR, false))
  {
    assert forall i | 0 <= i < 11 :: JsonSchema.Plain(BR[i]);
    ObjectPlain(BEAD_NAMES, BR, 6, false);
    ObjectPlain(PAGE_NAMES, PAGE_SCHEMAS, 1, false);
    var bead := ObjectSchema(BEAD_NAMES, BR, 6, false);
    var parts := [Typed("array").(items := Some(bead)), ObjectSchema(PAGE_NAMES, PAGE_SCHEMAS, 1, false)];
    hide ObjectSchema;
    assert JsonSchema.Plain(parts[0]) && JsonSchema.Plain(parts[1]);
    ObjectPlain(LIST_NAMES, parts, 2, false);
  }

  // ----- its maxima in a response

  ghost predicate SlotsWithin(slots: seq<Value>, schemas: seq<Schema>, re: Matcher)
    requires |slots| == |schemas|
  {
    forall i | 0 <= i < |slots| && !slots[i].Undefined? :: JsonSchema.WithinMaxima(slots[i], schemas[i], re)
  }

  lemma ObjectWithin(names: seq<string>, slots: seq<Value>, schemas: seq<Schema>, required: nat, closed: bool,
      re: Matcher)
    requires required <= |names| == |slots| == |schemas| && Distinct(names)
    ensures JsonSchema.WithinMaxima(Obj(Present(names, slots)), ObjectSchema(names, schemas, required, closed), re)
       <==> SlotsWithin(slots, schemas, re)
  {
    hide Present, Has, Get, Satisfies, NumValue;
    var fields, s := Present(names, slots), ObjectSchema(names, schemas, required, closed);
    forall i | 0 <= i < |names|
      ensures (Has(fields, names[i]) <==> !slots[i].Undefined?) && Get(fields, names[i]) == slots[i]
      ensures s.properties.list[i] == Property(names[i], schemas[i])
    {
      PresentGet(names, slots, i);
    }
    if JsonSchema.WithinMaxima(Obj(fields), s, re) {
      forall i | 0 <= i < |slots| && !slots[i].Undefined?
        ensures JsonSchema.WithinMaxima(slots[i], schemas[i], re)
      {
        assert Has(fields, s.properties.list[i].name);
      }
    }
  }

  /** A schema that has no parts. */
  lemma LeafWithin(v: Value, s: Schema, re: Matcher)
    requires s.anyOf.NoChoice? && s.items.None? && s.properties.NoShape?
    ensures JsonSchema.WithinMaxima(v, s, re) <==> (v.Num? && s.maximum.Some? ==> NumValue(v.text) <= s.maximum.value)
  {
  }

  lemma BeadWithin(v: Value, re: Matcher)
    requires Acceptable(v)
    ensures JsonSchema.WithinMaxima(BeadOf(v), ObjectSchema(BEAD_NAMES, BR, 6, false), re)
       <==> NumValue(Get(v.fields, "priority").text) <= 4.0
  {
    hide Present, ObjectSchema, Get, NumValue, IsInteger, JsonSchema.WithinMaxima;
    NamesDistinct();
    var slots := BeadSlots(v.fields);
    ObjectWithin(BEAD_NAMES, slots, BR, 6, false, re);
    forall i | 0 <= i < 11
      ensures JsonSchema.WithinMaxima(slots[i], BR[i], re)
         <==> (slots[i].Num? && BR[i].maximum.Some? ==> NumValue(slots[i].text) <= BR[i].maximum.value)
    {
      LeafWithin(slots[i], BR[i], re);
    }
    assert forall i | 0 <= i < 11 && i != 4 :: BR[i].maximum.None?;
    assert slots[4] == Get(v.fields, "priority");
    assert BR[4].maximum == Some(4.0);
  }

  lemma PageWithin(raw: seq<Field>, dropped: nat, re: Matcher)
    ensures JsonSchema.WithinMaxima(Obj(Present(PAGE_NAMES, PageSlots(raw, dropped))),
        ObjectSchema(PAGE_NAMES, PAGE_SCHEMAS, 1, false), re)
  {
    hide Present, ObjectSchema, PageSlots, JsonSchema.WithinMaxima;
    NamesDistinct();
    var slots := PageSlots(raw, dropped);
    forall i | 0 <= i < 3 ensures JsonSchema.WithinMaxima(slots[i], PAGE_SCHEMAS[i], re) {
      LeafWithin(slots[i], PAGE_SCHEMAS[i], re);
    }
    ObjectWithin(PAGE_NAMES, slots, PAGE_SCHEMAS, 1, false, re);
  }

  lemma ItemsWithin(items: seq<Value>, s: Schema, re: Matcher)
    ensures JsonSchema.WithinMaxima(Arr(items), Typed("array").(items := Some(s)), re)
       <==> forall i | 0 <= i < |items| :: JsonSchema.WithinMaxima(items[i], s, re)
  {
  }

  predicate PriorityAtMostFour(issue: Value) {
    issue.Obj? && Get(issue.fields, "priority").Num? ==> NumValue(Get(issue.fields, "priority").text) <= 4.0
  }

  function BeadSchema(): Schema {
    ObjectSchema(BEAD_NAMES, BR, 6, false)
  }

  lemma BeadsWithin(raw: seq<Field>, re: Matcher)
    ensures JsonSchema.WithinMaxima(Arr(Beads(Accepted(raw))), Typed("array").(items := Some(BeadSchema())), re)
       <==> forall i | 0 <= i < |Accepted(raw)| :: PriorityAtMostFour(Accepted(raw)[i])
  {
    hide ObjectSchema, BeadOf, Filtered, Acceptable, JsonSchema.WithinMaxima, PriorityAtMostFour;
    var kept := Accepted(raw);
    ItemsWithin(Beads(kept), BeadSchema(), re);
    AcceptedAcceptable(raw);
    forall i | 0 <= i < |kept|
      ensures JsonSchema.WithinMaxima(BeadOf(kept[i]), BeadSchema(), re) <==> PriorityAtMostFour(kept[i])
    {
      BeadWithin(kept[i], re);
      PriorityIs(kept[i]);
    }
  }

  lemma TwoWithin(beads: seq<Value>, page: seq<Value>, itemsSchema: Schema, pageSchema: Schema, re: Matcher)
    requires |page| == 3
    ensures JsonSchema.WithinMaxima(Obj(Present(LIST_NAMES, ListSlots(beads, page))),
                                    ObjectSchema(LIST_NAMES, [itemsSchema, pageSchema], 2, false), re)
       <==> JsonSchema.WithinMaxima(Arr(beads), itemsSchema, re)
            && JsonSchema.WithinMaxima(Obj(Present(PAGE_NAMES, page)), pageSchema, re)
  {
    NamesDistinct();
    var slots, schemas := ListSlots(beads, page), [itemsSchema, pageSchema];
    hide Present, ObjectSchema, JsonSchema.WithinMaxima;
    ObjectWithin(LIST_NAMES, slots, schemas, 2, false, re);
    assert SlotsWithin(slots, schemas, re)
      <==> JsonSchema.WithinMaxima(slots[0], schemas[0], re) && JsonSchema.WithinMaxima(slots[1], schemas[1], re);
  }

  lemma ResponseWithin(raw: seq<Field>, re: Matcher)
    ensures JsonSchema.WithinMaxima(Response(raw), ListSchema(BR, false), re)
       <==> forall i | 0 <= i < |Accepted(raw)| :: PriorityAtMostFour(Accepted(raw)[i])
  {
    assert |BR| == 11 && |PAGE_SCHEMAS| == 3;
    hide Present, ObjectSchema, PageSlots, Beads, Accepted, Issues, JsonSchema.WithinMaxima, BR, PAGE_SCHEMAS,
        PriorityAtMostFour;
    var dropped := |Issues(raw)| - |Accepted(raw)|;
    PageWithin(raw, dropped, re);
    BeadsWithin(raw, re);
    TwoWithin(Beads(Accepted(raw)), PageSlots(raw, dropped), Typed("array").(items := Some(BeadSchema())),
      ObjectSchema(PAGE_NAMES, PAGE_SCHEMAS, 1, false), re);
  }

  lemma PriorityIs(v: Value)
    requires Acceptable(v)
    ensures v.Obj? && Get(v.fields, "priority").Num?
    ensures PriorityAtMostFour(v) <==> NumValue(Get(v.fields, "priority").text) <= 4.0
  {
    hide NumValue, IsInteger;
  }

  /** As JSON Schema reads the file, the response meets it exactly when the
      validator finds nothing and no accepted priority is above 4. */
  lemma ResponseMeetsBrSchemaIff(raw: seq<Field>, re: Matcher)
    requires Valid(Obj(raw))
    ensures JsonSchema.Standard(Response(raw), ListSchema(BR, false), re)
       <==> Validate(Response(raw), ListSchema(BR, false), [], re) == []
            && forall i | 0 <= i < |Accepted(raw)| :: PriorityAtMostFour(Accepted(raw)[i])
  {
    assert |BR| == 11;
    hide *;
    ResponseValid(raw);
    SchemasSound();
    ListSound(BR, false);
    ListPlain();
    ValidateIff(Response(raw), ListSchema(BR, false), [], re);
    JsonSchema.StandardIff(Response(raw), ListSchema(BR, false), re);
    ResponseWithin(raw, re);
  }

  // ----- two inputs the mapper lets through

  function Issue(status: string, priority: string): Value {
    Obj([Field(RAW_NAMES[0], Str("b")), Field(RAW_NAMES[1], Str("t")), Field(RAW_NAMES[2], Str(status)),
         Field(RAW_NAMES[3], Num(priority)), Field(RAW_NAMES[4], Str("task"))])
  }

  function OneIssue(status: string, priority: string): seq<Field> {
    [Field("issues", Arr([Issue(status, priority)]))]
  }

  lemma IssueGets(status: string, priority: string)
    ensures var f := Issue(status, priority).fields;
            && UniqueKeys(f)
            && Get(f, "id") == Str("b") && Get(f, "title") == Str("t") && Get(f, "status") == Str(status)
            && Get(f, "priority") == Num(priority) && Get(f, "issue_type") == Str("task")
  {
    var f := Issue(status, priority).fields;
    var n := RAW_NAMES;
    assert |n[0]| == 2 && |n[1]| == 5 && |n[2]| == 6 && |n[3]| == 8 && |n[4]| == 10;
    assert UniqueKeys(f);
    GetAt(f, 0);
    GetAt(f, 1);
    GetAt(f, 2);
    GetAt(f, 3);
    GetAt(f, 4);
  }

  lemma IssueAccepted(status: string, priority: string)
    requires IsNumber(priority) && IsInteger(priority)
    ensures Valid(Obj(OneIssue(status, priority))) && Accepted(OneIssue(status, priority)) == [Issue(status, priority)]
  {
    hide Get, IsNumber, IsInteger, Issue;
    IssueGets(status, priority);
    var v := Issue(status, priority);
    var raw := OneIssue(status, priority);
    GetAt(raw, 0);
    IssueAcceptable(status, priority);
    IssueValid(status, priority);
    assert Issues(raw) == [v];
    FilteredOne(v, Acceptable);
  }

  lemma IssueAcceptable(status: string, priority: string)
    requires IsInteger(priority)
    ensures Acceptable(Issue(status, priority))
  {
    IssueGets(status, priority);
    hide Get, IsInteger;
    assert Issue(status, priority).Obj?;
  }

  lemma IssueValid(status: string, priority: string)
    requires IsNumber(priority)
    ensures Issue(status, priority).Obj? && Valid(Issue(status, priority))
  {
    hide IsNumber, Get;
    IssueGets(status, priority);
  }

  /** A priority of 9 passes the validator and breaks the file's `maximum`. */
  lemma PriorityNine(re: Matcher)
    ensures var response := Response(OneIssue("open", "9"));
            Validate(response, ListSchema(BR, false), [], re) == []
            && !JsonSchema.Standard(response, ListSchema(BR, false), re)
  {
    hide Validate, Response, ListSchema, Issue, OneIssue, Get, IsNumber, IsInteger, NumValue, BR;
    JsonSchema.NineValue();
    var raw := OneIssue("open", "9");
    IssueAccepted("open", "9");
    IssueGets("open", "9");
    IssueIsObj("open", "9");
    assert STATUSES[0] == Str("open") && ISSUE_TYPES[0] == Str("task");
    ResponseFitsBrSchemaIff(raw, re);
    ResponseMeetsBrSchemaIff(raw, re);
    assert !PriorityAtMostFour(Accepted(raw)[0]);
  }

  lemma IssueIsObj(status: string, priority: string)
    ensures Issue(status, priority).Obj?
  {
  }

  /** An issue with a status the schema does not list is accepted, and the validator
      rejects the response. */
  lemma UnknownStatus(re: Matcher)
    ensures Accepted(OneIssue("waiting", "9")) == [Issue("waiting", "9")]
    ensures Validate(Response(OneIssue("waiting", "9")), ListSchema(BR, false), [], re) != []
  {
    hide Validate, Response, ListSchema, Issue, OneIssue, Get, IsNumber, IsInteger, NumValue, BR;
    JsonSchema.NineValue();
    IssueAccepted("waiting", "9");
    IssueGets("waiting", "9");
    IssueIsObj("waiting", "9");
    ResponseFitsBrSchemaIff(OneIssue("waiting", "9"), re);
    assert "waiting"[0] == 'w';
    assert forall i | 0 <= i < 5 :: STATUSES[i].s[0] != 'w';
    assert !Known(Accepted(OneIssue("waiting", "9"))[0]);
  }

  // ----- which raw property becomes which

  lemma BeadCarries(v: Value)
    requires Acceptable(v)
    ensures BeadOf(v).Obj?
    ensures var b, r := BeadOf(v).fields, v.fields;
            && Get(b, "schemaVersion") == Num("1") && Get(b, "id") == Get(r, "id") && Get(b, "title") == Get(r, "title")
            && Get(b, "status") == Get(r, "status") && Get(b, "priority") == Get(r, "priority")
            && Get(b, "issueType") == Get(r, "issue_type")
  {
    hide Get, Present, IsInteger;
    NamesDistinct();
    var slots := BeadSlots(v.fields);
    PresentGet(BEAD_NAMES, slots, 0);
    PresentGet(BEAD_NAMES, slots, 1);
    PresentGet(BEAD_NAMES, slots, 2);
    PresentGet(BEAD_NAMES, slots, 3);
    PresentGet(BEAD_NAMES, slots, 4);
    PresentGet(BEAD_NAMES, slots, 5);
  }

  function TextOnly(v: Value): Value {
    if v.Str? then v else Undefined
  }

  lemma BeadCarriesTexts(v: Value)
    requires Acceptable(v)
    ensures BeadOf(v).Obj?
    ensures var b, r := BeadOf(v).fields, v.fields;
            && Get(b, "description") == TextOnly(Get(r, "description"))
            && Get(b, "sourceRepo") == TextOnly(Get(r, "source_repo"))
            && Get(b, "createdAt") == TextOnly(Get(r, "created_at"))
            && Get(b, "updatedAt") == TextOnly(Get(r, "updated_at"))
            && Get(b, "createdBy") == TextOnly(Get(r, "created_by"))
  {
    hide Get, Present, IsInteger;
    NamesDistinct();
    var slots := BeadSlots(v.fields);
    PresentGet(BEAD_NAMES, slots, 6);
    PresentGet(BEAD_NAMES, slots, 7);
    PresentGet(BEAD_NAMES, slots, 8);
    PresentGet(BEAD_NAMES, slots, 9);
    PresentGet(BEAD_NAMES, slots, 10);
  }

  /** The page says whether there is more, false if the raw output does not, and the
      total if that is a whole number from 0 on. */
  lemma PageCarries(raw: seq<Field>)
    ensures Response(raw).Obj? && Get(Response(raw).fields, "page").Obj?
    ensures var page, more, total := Get(Response(raw).fields, "page").fields, Get(raw, "has_more"), Get(raw, "total");
            && Get(page, "hasMore") == (if more.Bool? then more else Bool(false))
            && Get(page, "total")
               == (if total.Num? && NumValue(total.text) >= 0.0
                      && NumValue(total.text) == NumValue(total.text).Floor as real then total else Undefined)
  {
    NamesDistinct();
    hide Get, Present, Filtered, NumValue, Decimal, Acceptable, BeadOf;
    var dropped := |Issues(raw)| - |Accepted(raw)|;
    var page := PageSlots(raw, dropped);
    PresentGet(LIST_NAMES, ListSlots(Beads(Accepted(raw)), page), 1);
    PresentGet(PAGE_NAMES, page, 0);
    PresentGet(PAGE_NAMES, page, 1);
    assert LIST_NAMES[1] == "page" && PAGE_NAMES[0] == "hasMore" && PAGE_NAMES[1] == "total";
  }
}
