/** packages/fixtures/replay/scenario-source.ts: normalising capabilities.json,
    whose two shapes and tool aliases become one registry. */
module Capabilities {
  import opened Json
  import opened Records
  import opened Results

  // ----- tool ids

  const TOOL_IDS := ["ntm", "br", "bv", "agent_mail", "git", "ru", "caam", "caut", "dcg", "casr", "pt", "srp",
                     "sbh", "ubs", "jsm", "jfp", "oracle", "rch", "rano", "health_ts", "health_py",
                     "health_rs", "health_go", "health_generic"]
  const ALIAS := "health"
  const ALIASED := "health_generic"

  function Canonical(rawToolId: string): string {
    if rawToolId == ALIAS then ALIASED else rawToolId
  }

  predicate Known(rawToolId: string) {
    Canonical(rawToolId) in TOOL_IDS
  }

  /** Canonical ids stand for themselves, and only the alias stands for another. */
  lemma CanonicalMeans(a: string, b: string)
    ensures Canonical(Canonical(a)) == Canonical(a)
    ensures Known(a) ==> Canonical(a) in TOOL_IDS && Known(Canonical(a))
    ensures Canonical(a) == Canonical(b) <==> a == b || {a, b} == {ALIAS, ALIASED}
  {
    assert |ALIAS| != |ALIASED|;
  }

  datatype LoadError =
    | UnknownTool(rawToolId: string)
    | EntryNotObject(rawToolId: string)
    | ToolDisagrees(rawToolId: string, tool: Value)
    | DuplicateTool(toolId: string, rawToolId: string)
    | CapabilityNotObject(toolId: string, capId: string)
    | BadStatus(toolId: string, capId: string)
    | BadTransport(toolId: string, capId: string)
    | RegistryNotObject
    | BadSchemaVersion
    | BadEnvelope

  function NormalizeToolId(rawToolId: string): Result<string, LoadError> {
    if Known(rawToolId) then Ok(Canonical(rawToolId)) else Err(UnknownTool(rawToolId))
  }

  // ----- one capability

  const STATUSES := ["ok", "degraded", "missing", "blocked-by-policy", "untested"]
  const TRANSPORTS := ["websocket", "sse", "http", "stdio", "fixture"]

  function CapabilityNames(): (r: seq<string>)
    ensures |r| == 4 && Distinct(r)
  {
    var r := ["status", "fallback", "transport", "notes"];
    assert r[0][0] == 's' && r[1][0] == 'f' && r[2][0] == 't' && r[3][0] == 'n';
    r
  }

  function CapabilitySlots(raw: seq<Field>): (r: seq<Value>)
    ensures |r| == 4
  {
    [Get(raw, CapabilityNames()[0]), Text(Get(raw, CapabilityNames()[1])), Text(Get(raw, CapabilityNames()[2])),
        Text(Get(raw, CapabilityNames()[3]))]
  }

  predicate SlotsFit(slots: seq<Value>)
    requires |slots| == 4
  {
    slots[0].Str? && slots[0].s in STATUSES && (slots[2].Undefined? || (slots[2].Str? && slots[2].s in TRANSPORTS))
  }

  /** What the source accepts as a capability. */
  predicate Fits(raw: Value) {
    raw.Obj? && SlotsFit(CapabilitySlots(raw.fields))
  }

  /** The capability with the known properties only. */
  function CapabilityOf(raw: Value): Value {
    if raw.Obj? then Obj(Present(CapabilityNames(), CapabilitySlots(raw.fields))) else raw
  }

  function CapabilityError(toolId: string, capId: string, raw: Value): LoadError {
    if !raw.Obj? then CapabilityNotObject(toolId, capId)
    else if !CapabilitySlots(raw.fields)[0].Str? || CapabilitySlots(raw.fields)[0].s !in STATUSES then
      BadStatus(toolId, capId)
    else BadTransport(toolId, capId)
  }

  function Slot(name: string, v: Value): seq<Field> {
    if v.Undefined? then [] else [Field(name, v)]
  }

  lemma PresentFour(names: seq<string>, slots: seq<Value>)
    requires |names| == |slots| == 4
    ensures Present(names, slots)
         == Slot(names[0], slots[0]) + Slot(names[1], slots[1]) + Slot(names[2], slots[2]) + Slot(names[3], slots[3])
  {
    PresentStep(names, slots);
    PresentStep(names[1..], slots[1..]);
    PresentStep(names[2..], slots[2..]);
    PresentStep(names[3..], slots[3..]);
    assert names[1..][1..] == names[2..] && names[2..][1..] == names[3..] && names[3..][1..] == [];
    assert slots[1..][1..] == slots[2..] && slots[2..][1..] == slots[3..] && slots[3..][1..] == [];
  }

  lemma {:induction false} PresentStep(names: seq<string>, slots: seq<Value>)
    requires |names| == |slots| > 0
    ensures Present(names, slots) == Slot(names[0], slots[0]) + Present(names[1..], slots[1..])
  {
  }

  method NormalizeCapability(toolId: string, capId: string, raw: Value) returns (r: Result<Value, LoadError>)
    ensures r.Ok? <==> Fits(raw)
    ensures r.Ok? ==> r.value == CapabilityOf(raw)
    ensures r.Err? ==> r.error == CapabilityError(toolId, capId, raw)
  {
    hide CapabilityNames, STATUSES, TRANSPORTS, Present;
    if !raw.Obj? { return Err(CapabilityNotObject(toolId, capId)); }
    var slots := CapabilitySlots(raw.fields);
    var rawStatus := slots[0];
    if !rawStatus.Str? || rawStatus.s !in STATUSES { return Err(BadStatus(toolId, capId)); }
    var names := CapabilityNames();
    var capability := [Field(names[0], rawStatus)];
    var fallback, transport, notes := slots[1], slots[2], slots[3];
    if !fallback.Undefined? { capability := capability + [Field(names[1], fallback)]; }
    if !transport.Undefined? {
      if transport.s !in TRANSPORTS { return Err(BadTransport(toolId, capId)); }
      capability := capability + [Field(names[2], transport)];
    }
    if !notes.Undefined? { capability := capability + [Field(names[3], notes)]; }
    r := Ok(Obj(capability));
    PresentFour(names, slots);
  }

  /** A capability keeps the four known properties as they were and loses every
      other one. */
  lemma CapabilityKeeps(raw: Value, i: nat)
    requires Fits(raw) && i < 4
    ensures UniqueKeys(CapabilityOf(raw).fields)
    ensures Get(CapabilityOf(raw).fields, CapabilityNames()[i])
        == if i == 0 then Get(raw.fields, CapabilityNames()[0]) else Text(Get(raw.fields, CapabilityNames()[i]))
    ensures forall f | f in CapabilityOf(raw).fields :: f.key in CapabilityNames() && f.val.Str?
  {
    hide CapabilityNames, STATUSES, TRANSPORTS;
    PresentGet(CapabilityNames(), CapabilitySlots(raw.fields), i);
    PresentMembers(CapabilityNames(), CapabilitySlots(raw.fields));
  }

  lemma CapabilityTwice(raw: Value)
    requires Fits(raw)
    ensures Fits(CapabilityOf(raw)) && CapabilityOf(CapabilityOf(raw)) == CapabilityOf(raw)
  {
    hide CapabilityNames, STATUSES, TRANSPORTS;
    CapabilityKeeps(raw, 0);
    CapabilityKeeps(raw, 1);
    CapabilityKeeps(raw, 2);
    CapabilityKeeps(raw, 3);
    assert CapabilitySlots(CapabilityOf(raw).fields) == CapabilitySlots(raw.fields);
  }

  // ----- the capabilities of a tool

  predicate AllFit(raw: seq<Field>) {
    forall f | f in raw :: Fits(f.val)
  }

  function CapabilitiesOf(raw: seq<Field>): (r: seq<Field>)
    ensures |r| == |raw| && forall i | 0 <= i < |r| :: r[i] == Field(raw[i].key, CapabilityOf(raw[i].val))
  {
    seq(|raw|, i requires 0 <= i < |raw| => Field(raw[i].key, CapabilityOf(raw[i].val)))
  }

  /** `e` is about the first capability that does not fit. */
  ghost predicate BlamesCapability(e: LoadError, toolId: string, raw: seq<Field>) {
    exists i | 0 <= i < |raw| ::
      AllFit(raw[..i]) && !Fits(raw[i].val) && e == CapabilityError(toolId, raw[i].key, raw[i].val)
  }

  method NormalizeCapabilitiesMap(toolId: string, raw: seq<Field>) returns (r: Result<seq<Field>, LoadError>)
    requires UniqueKeys(raw)
    ensures r.Ok? <==> AllFit(raw)
    ensures r.Ok? ==> r.value == CapabilitiesOf(raw)
    ensures r.Err? ==> BlamesCapability(r.error, toolId, raw)
  {
    hide Fits, CapabilityOf, CapabilityError;
    var capabilities: seq<Field> := [];
    for i := 0 to |raw|
      invariant AllFit(raw[..i]) && capabilities == CapabilitiesOf(raw[..i])
    {
      var c := NormalizeCapability(toolId, raw[i].key, raw[i].val);
      if c.Err? {
        assert raw[i] in raw;
        return Err(c.error);
      }
      assert raw[..i + 1] == raw[..i] + [raw[i]];
      PutNew(capabilities, Field(raw[i].key, c.value));
      capabilities := Put(capabilities, Field(raw[i].key, c.value));
    }
    assert raw[..|raw|] == raw;
    return Ok(capabilities);
  }

  lemma CapabilitiesTwice(raw: seq<Field>)
    requires AllFit(raw)
    ensures AllFit(CapabilitiesOf(raw)) && CapabilitiesOf(CapabilitiesOf(raw)) == CapabilitiesOf(raw)
  {
    hide Fits, CapabilityOf;
    var r := CapabilitiesOf(raw);
    forall i | 0 <= i < |raw|
      ensures Fits(r[i].val) && CapabilityOf(r[i].val) == r[i].val
    {
      assert raw[i] in raw;
      CapabilityTwice(raw[i].val);
    }
  }

  // ----- the report of a tool

  datatype Meta = Meta(capturedAt: string, fixturesVersion: string)

  function ReportNames(): (r: seq<string>)
    ensures |r| == 6 && Distinct(r)
  {
    var r := ["tool", "version", "source", "capabilities", "lastCheckedAt", "fixturesVersion"];
    assert r[0][0] == 't' && r[1][0] == 'v' && r[2][0] == 's' && r[3][0] == 'c' && r[4][0] == 'l' && r[5][0] == 'f';
    r
  }

  const NO_VERSION := ""
  const FIXTURE := "fixture"

  predicate IsToolReport(raw: seq<Field>) {
    var names := ReportNames();
    && Get(raw, names[0]).Str? && Get(raw, names[1]).Str? && Get(raw, names[2]).Str? && Get(raw, names[3]).Obj?
    && Get(raw, names[4]).Str? && Get(raw, names[5]).Str?
  }

  /** The properties read as capabilities: those of a full report's
      `capabilities`, or the entry itself. */
  function RawCapabilities(raw: seq<Field>): seq<Field> {
    if IsToolReport(raw) then Get(raw, ReportNames()[3]).fields else raw
  }

  predicate ReportFits(toolId: string, raw: Value) {
    && raw.Obj?
    && (IsToolReport(raw.fields) ==> Get(raw.fields, ReportNames()[0]) == Str(toolId))
    && AllFit(RawCapabilities(raw.fields))
  }

  function FreshReport(toolId: string, capabilities: seq<Field>, meta: Meta): seq<Field> {
    var names := ReportNames();
    [Field(names[0], Str(toolId)), Field(names[1], Str(NO_VERSION)), Field(names[2], Str(FIXTURE)),
     Field(names[3], Obj(capabilities)), Field(names[4], Str(meta.capturedAt)),
         Field(names[5], Str(meta.fixturesVersion))]
  }

  function ReportOf(toolId: string, raw: Value, meta: Meta): Value {
    if !raw.Obj? then raw
    else if IsToolReport(raw.fields) then
      Obj(Put(raw.fields, Field(ReportNames()[3], Obj(CapabilitiesOf(RawCapabilities(raw.fields))))))
    else Obj(FreshReport(toolId, CapabilitiesOf(raw.fields), meta))
  }

  ghost predicate BlamesReport(e: LoadError, rawToolId: string, raw: Value) {
    if !raw.Obj? then e == EntryNotObject(rawToolId)
    else if IsToolReport(raw.fields) && Get(raw.fields, ReportNames()[0]) != Str(Canonical(rawToolId)) then
      e == ToolDisagrees(rawToolId, Get(raw.fields, ReportNames()[0]))
    else BlamesCapability(e, Canonical(rawToolId), RawCapabilities(raw.fields))
  }

  method NormalizeToolReport(rawToolId: string, raw: Value, meta: Meta) returns (r: Result<Value, LoadError>)
    requires Valid(raw)
    ensures r.Ok? <==> Known(rawToolId) && ReportFits(Canonical(rawToolId), raw)
    ensures r.Ok? ==> r.value == ReportOf(Canonical(rawToolId), raw, meta)
    ensures r.Err? ==> if Known(rawToolId) then BlamesReport(r.error, rawToolId, raw)
        else r.error == UnknownTool(rawToolId)
  {
    hide ReportNames, Fits, CapabilityOf, AllFit, BlamesCapability, Known, Canonical;
    var id := NormalizeToolId(rawToolId);
    if id.Err? { return Err(id.error); }
    var toolId := id.value;
    if !raw.Obj? { return Err(EntryNotObject(rawToolId)); }
    ValidCapabilities(raw);
    if IsToolReport(raw.fields) {
      var tool := Get(raw.fields, ReportNames()[0]);
      if tool != Str(toolId) { return Err(ToolDisagrees(rawToolId, tool)); }
      var c := NormalizeCapabilitiesMap(toolId, Get(raw.fields, ReportNames()[3]).fields);
      if c.Err? { return Err(c.error); }
      return Ok(Obj(Put(raw.fields, Field(ReportNames()[3], Obj(c.value)))));
    }
    var c := NormalizeCapabilitiesMap(toolId, raw.fields);
    if c.Err? { return Err(c.error); }
    return Ok(Obj(FreshReport(toolId, c.value, meta)));
  }

  lemma ValidCapabilities(raw: Value)
    requires Valid(raw) && raw.Obj?
    ensures UniqueKeys(RawCapabilities(raw.fields))
  {
    hide ReportNames;
    if IsToolReport(raw.fields) {
      var caps := Get(raw.fields, ReportNames()[3]);
      assert Field(ReportNames()[3], caps) in raw.fields;
      assert Valid(caps);
    }
  }

  lemma {:induction false} GetHas(fields: seq<Field>, key: string)
    requires !Get(fields, key).Undefined?
    ensures Has(fields, key)
  {
    if fields[0].key != key {
      GetHas(fields[1..], key);
      var i :| 0 <= i < |fields[1..]| && fields[1..][i].key == key;
      assert fields[i + 1].key == key;
    }
  }

  /** A normalised report is a full report of its tool, and normalising it again,
      at whatever time, changes nothing. */
  lemma ReportTwice(toolId: string, raw: Value, meta: Meta, later: Meta)
    requires ReportFits(toolId, raw)
    ensures var r := ReportOf(toolId, raw, meta);
            && r.Obj? && IsToolReport(r.fields) && Get(r.fields, ReportNames()[0]) == Str(toolId)
            && ReportFits(toolId, r) && ReportOf(toolId, r, later) == r
  {
    hide ReportNames, AllFit, CapabilitiesOf;
    var names := ReportNames();
    var r := ReportOf(toolId, raw, meta).fields;
    var caps := CapabilitiesOf(RawCapabilities(raw.fields));
    CapabilitiesTwice(RawCapabilities(raw.fields));
    if IsToolReport(raw.fields) {
      var f := Field(names[3], Obj(caps));
      forall i | 0 <= i < 6
        ensures Get(r, names[i]) == if i == 3 then Obj(caps) else Get(raw.fields, names[i])
      {
        PutGet(raw.fields, f, names[i]);
      }
      assert IsToolReport(r);
      PutGet(raw.fields, f, names[3]);
      PutSame(r, f);
    } else {
      FreshGet(toolId, caps, meta);
      GetHas(r, names[3]);
      PutSame(r, Field(names[3], Obj(caps)));
    }
  }

  lemma FreshGet(toolId: string, caps: seq<Field>, meta: Meta)
    ensures var r, names := FreshReport(toolId, caps, meta), ReportNames();
            && IsToolReport(r) && Get(r, names[0]) == Str(toolId) && Get(r, names[3]) == Obj(caps)
  {
    hide ReportNames, Get;
    FreshKeys(toolId, caps, meta);
    AllGet(FreshReport(toolId, caps, meta));
    var r := FreshReport(toolId, caps, meta);
    assert forall i | 0 <= i < 6 :: r[i].key == ReportNames()[i];
    assert Get(r, r[0].key) == r[0].val && Get(r, r[1].key) == r[1].val && Get(r, r[2].key) == r[2].val;
    assert Get(r, r[3].key) == r[3].val && Get(r, r[4].key) == r[4].val && Get(r, r[5].key) == r[5].val;
  }

  lemma FreshKeys(toolId: string, caps: seq<Field>, meta: Meta)
    ensures UniqueKeys(FreshReport(toolId, caps, meta))
  {
    hide ReportNames;
    var r := FreshReport(toolId, caps, meta);
    assert forall i, j | 0 <= i < j < 6 :: r[i].key == ReportNames()[i] && r[j].key == ReportNames()[j];
  }

  lemma AllGet(fields: seq<Field>)
    requires UniqueKeys(fields)
    ensures forall i | 0 <= i < |fields| :: Get(fields, fields[i].key) == fields[i].val
  {
    forall i | 0 <= i < |fields| ensures Get(fields, fields[i].key) == fields[i].val { GetAt(fields, i); }
  }

  // ----- the tools of a registry

  ghost predicate EntryFits(entry: Field) {
    Known(entry.key) && ReportFits(Canonical(entry.key), entry.val)
  }

  /** Every entry is a known tool's, and no two name the same tool. */
  ghost predicate ToolsFit(entries: seq<Field>) {
    && (forall i | 0 <= i < |entries| :: EntryFits(entries[i]))
    && (forall i, j | 0 <= i < j < |entries| :: Canonical(entries[i].key) != Canonical(entries[j].key))
  }

  function ToolsOf(entries: seq<Field>, meta: Meta): (r: seq<Field>)
    ensures |r| == |entries|
    ensures forall i | 0 <= i < |r| ::
        r[i] == Field(Canonical(entries[i].key), ReportOf(Canonical(entries[i].key), entries[i].val, meta))
  {
    seq(|entries|, i requires 0 <= i < |entries| =>
        Field(Canonical(entries[i].key), ReportOf(Canonical(entries[i].key), entries[i].val, meta)))
  }

  predicate NamedBefore(entries: seq<Field>, i: nat)
    requires i < |entries|
  {
    exists j | 0 <= j < i :: Canonical(entries[j].key) == Canonical(entries[i].key)
  }

  /** `e` is what is wrong with entry i. */
  ghost predicate BlamesEntry(e: LoadError, entries: seq<Field>, i: nat)
    requires i < |entries|
  {
    if !Known(entries[i].key) then e == UnknownTool(entries[i].key)
    else if NamedBefore(entries, i) then e == DuplicateTool(Canonical(entries[i].key), entries[i].key)
    else !EntryFits(entries[i]) && BlamesReport(e, entries[i].key, entries[i].val)
  }

  /** `e` is about the first entry that cannot be added. */
  ghost predicate BlamesTools(e: LoadError, entries: seq<Field>) {
    exists i | 0 <= i < |entries| :: ToolsFit(entries[..i]) && BlamesEntry(e, entries, i)
  }

  method AddToolReport(tools: seq<Field>, rawToolId: string, rawReport: Value, meta: Meta)
      returns (r: Result<seq<Field>, LoadError>)
    requires Valid(rawReport)
    ensures r.Ok? <==> EntryFits(Field(rawToolId, rawReport)) && !Has(tools, Canonical(rawToolId))
    ensures r.Ok? ==> r.value == tools + [Field(Canonical(rawToolId), ReportOf(Canonical(rawToolId), rawReport, meta))]
    ensures r.Err? ==> if !Known(rawToolId) then r.error == UnknownTool(rawToolId)
                       else if Has(tools, Canonical(rawToolId))
                           then r.error == DuplicateTool(Canonical(rawToolId), rawToolId)
                       else BlamesReport(r.error, rawToolId, rawReport)
  {
    hide ReportFits, ReportOf, BlamesReport, Known, Canonical;
    var id := NormalizeToolId(rawToolId);
    if id.Err? { return Err(id.error); }
    var toolId := id.value;
    if Has(tools, toolId) { return Err(DuplicateTool(toolId, rawToolId)); }
    var report := NormalizeToolReport(rawToolId, rawReport, meta);
    if report.Err? { return Err(report.error); }
    PutNew(tools, Field(toolId, report.value));
    return Ok(Put(tools, Field(toolId, report.value)));
  }

  lemma ToolsFitMore(entries: seq<Field>, i: nat)
    requires i < |entries| && ToolsFit(entries[..i])
    ensures ToolsFit(entries[..i + 1]) <==> EntryFits(entries[i]) && !NamedBefore(entries, i)
  {
    hide EntryFits, Canonical;
    if ToolsFit(entries[..i + 1]) {
      var more := entries[..i + 1];
      assert EntryFits(more[i]) && more[i] == entries[i];
      assert forall j | 0 <= j < i :: Canonical(more[j].key) != Canonical(more[i].key) && more[j] == entries[j];
    }
  }

  lemma ToolsFitLess(entries: seq<Field>, i: nat)
    requires i <= |entries| && ToolsFit(entries)
    ensures ToolsFit(entries[..i])
  {
    hide EntryFits, Canonical;
  }

  lemma NoTools(entries: seq<Field>)
    ensures ToolsFit(entries[..0])
  {
  }

  lemma SeenBefore(entries: seq<Field>, i: nat, meta: Meta)
    requires i < |entries|
    ensures Has(ToolsOf(entries[..i], meta), Canonical(entries[i].key)) <==> NamedBefore(entries, i)
  {
    hide Canonical, ReportOf;
    var tools := ToolsOf(entries[..i], meta);
    assert forall j | 0 <= j < i :: tools[j].key == Canonical(entries[j].key);
  }

  method AddToolReports(entries: seq<Field>, meta: Meta) returns (r: Result<seq<Field>, LoadError>)
    requires Valid(Obj(entries))
    ensures r.Ok? <==> ToolsFit(entries)
    ensures r.Ok? ==> r.value == ToolsOf(entries, meta)
    ensures r.Err? ==> BlamesTools(r.error, entries)
  {
    hide EntryFits, ToolsFit, ReportOf, BlamesReport, Known, Canonical;
    var tools: seq<Field> := [];
    NoTools(entries);
    for i := 0 to |entries|
      invariant ToolsFit(entries[..i]) && tools == ToolsOf(entries[..i], meta)
    {
      assert Valid(entries[i].val);
      SeenBefore(entries, i, meta);
      var added := AddToolReport(tools, entries[i].key, entries[i].val, meta);
      ToolsFitMore(entries, i);
      if added.Err? {
        if ToolsFit(entries) { ToolsFitLess(entries, i + 1); }
        return Err(added.error);
      }
      tools := added.value;
    }
    assert entries[..|entries|] == entries;
    return Ok(tools);
  }

  // ----- the registry

  function RegistryNames(): (r: seq<string>)
    ensures |r| == 5 && Distinct(r)
  {
    var r := ["schemaVersion", "snapshotAt", "daemonApiVersion", "fixturesVersion", "tools"];
    assert |r[0]| == 13 && |r[1]| == 10 && |r[2]| == 16 && |r[3]| == 15 && |r[4]| == 5;
    r
  }

  const ONE := "1"
  const API_VERSION := "0.1.0"

  predicate LooksLikeEnvelope(raw: seq<Field>) {
    exists i | 0 <= i < 5 :: Has(raw, RegistryNames()[i])
  }

  predicate EnvelopeFits(raw: seq<Field>) {
    var names := RegistryNames();
    && Get(raw, names[0]) == Num(ONE)
    && Get(raw, names[1]).Str? && Get(raw, names[2]).Str? && Get(raw, names[3]).Str? && Get(raw, names[4]).Obj?
  }

  /** The entries of either shape. */
  function Entries(raw: seq<Field>): seq<Field> {
    if LooksLikeEnvelope(raw) && Get(raw, RegistryNames()[4]).Obj? then Get(raw, RegistryNames()[4]).fields else raw
  }

  ghost predicate Acceptable(raw: Value) {
    raw.Obj? && (LooksLikeEnvelope(raw.fields) ==> EnvelopeFits(raw.fields)) && ToolsFit(Entries(raw.fields))
  }

  function RegistryFields(version: Value, snapshotAt: Value, api: Value, fixtures: Value,
      tools: seq<Field>): seq<Field> {
    var names := RegistryNames();
    [Field(names[0], version), Field(names[1], snapshotAt), Field(names[2], api), Field(names[3], fixtures),
        Field(names[4], Obj(tools))]
  }

  function RegistryOf(raw: seq<Field>, meta: Meta): seq<Field> {
    var names := RegistryNames();
    var tools := ToolsOf(Entries(raw), meta);
    if LooksLikeEnvelope(raw) then
      RegistryFields(Num(ONE), Get(raw, names[1]), Get(raw, names[2]), Get(raw, names[3]), tools)
    else RegistryFields(Num(ONE), Str(meta.capturedAt), Str(API_VERSION), Str(meta.fixturesVersion), tools)
  }

  ghost predicate BlamesRegistry(e: LoadError, raw: Value) {
    if !raw.Obj? then e == RegistryNotObject
    else if LooksLikeEnvelope(raw.fields) && Get(raw.fields, RegistryNames()[0]) != Num(ONE) then e == BadSchemaVersion
    else if LooksLikeEnvelope(raw.fields) && !EnvelopeFits(raw.fields) then e == BadEnvelope
    else BlamesTools(e, Entries(raw.fields))
  }

  /** Loading succeeds exactly on the acceptable inputs, and otherwise names the
      first thing that is wrong. */
  method NormalizeCapabilityRegistry(raw: Value, meta: Meta) returns (r: Result<Value, LoadError>)
    requires Valid(raw)
    ensures r.Ok? <==> Acceptable(raw)
    ensures r.Ok? ==> r.value == Obj(RegistryOf(raw.fields, meta))
    ensures r.Err? ==> BlamesRegistry(r.error, raw)
  {
    hide ToolsFit, ToolsOf, BlamesTools, RegistryNames, ONE, API_VERSION;
    if !raw.Obj? { return Err(RegistryNotObject); }
    var fields, names := raw.fields, RegistryNames();
    ValidEntries(raw);
    if LooksLikeEnvelope(fields) {
      if Get(fields, names[0]) != Num(ONE) { return Err(BadSchemaVersion); }
      if !Get(fields, names[1]).Str? || !Get(fields, names[2]).Str? || !Get(fields, names[3]).Str?
          || !Get(fields, names[4]).Obj? {
        return Err(BadEnvelope);
      }
      var tools := AddToolReports(Get(fields, names[4]).fields, meta);
      if tools.Err? { return Err(tools.error); }
      return Ok(Obj(RegistryFields(Num(ONE), Get(fields, names[1]), Get(fields, names[2]), Get(fields, names[3]),
          tools.value)));
    }
    var tools := AddToolReports(fields, meta);
    if tools.Err? { return Err(tools.error); }
    return Ok(Obj(RegistryFields(Num(ONE), Str(meta.capturedAt), Str(API_VERSION), Str(meta.fixturesVersion),
        tools.value)));
  }

  lemma ValidEntries(raw: Value)
    requires Valid(raw) && raw.Obj?
    ensures Valid(Obj(Entries(raw.fields)))
  {
    hide RegistryNames, LooksLikeEnvelope;
    var tools := Get(raw.fields, RegistryNames()[4]);
    if LooksLikeEnvelope(raw.fields) && tools.Obj? {
      assert Field(RegistryNames()[4], tools) in raw.fields;
      assert tools == Obj(tools.fields);
    }
  }

  lemma RegistryGet(version: Value, snapshotAt: Value, api: Value, fixtures: Value, tools: seq<Field>)
    ensures var r, names := RegistryFields(version, snapshotAt, api, fixtures, tools), RegistryNames();
            && LooksLikeEnvelope(r)
            && Get(r, names[0]) == version && Get(r, names[1]) == snapshotAt && Get(r, names[2]) == api
                && Get(r, names[3]) == fixtures
            && Get(r, names[4]) == Obj(tools) && Entries(r) == tools
  {
    hide RegistryNames, Get;
    var r := RegistryFields(version, snapshotAt, api, fixtures, tools);
    assert forall i, j | 0 <= i < j < 5 :: r[i].key == RegistryNames()[i] && r[j].key == RegistryNames()[j];
    AllGet(r);
    assert r[0].key == RegistryNames()[0] && Has(r, RegistryNames()[0]);
  }

  lemma RegistryShape(raw: Value, meta: Meta)
    requires Acceptable(raw)
    ensures var r, names := RegistryOf(raw.fields, meta), RegistryNames();
            && LooksLikeEnvelope(r) && EnvelopeFits(r) && Entries(r) == ToolsOf(Entries(raw.fields), meta)
            && r == RegistryFields(Num(ONE), Get(r, names[1]), Get(r, names[2]), Get(r, names[3]),
                ToolsOf(Entries(raw.fields), meta))
  {
    hide RegistryNames, ToolsFit, LooksLikeEnvelope, ToolsOf;
    var names := RegistryNames();
    var tools := ToolsOf(Entries(raw.fields), meta);
    if LooksLikeEnvelope(raw.fields) {
      RegistryGet(Num(ONE), Get(raw.fields, names[1]), Get(raw.fields, names[2]), Get(raw.fields, names[3]), tools);
    } else {
      RegistryGet(Num(ONE), Str(meta.capturedAt), Str(API_VERSION), Str(meta.fixturesVersion), tools);
    }
  }

  // ----- what a registry that loaded satisfies

  /** One report for each entry, in the same order, under the canonical id of its
      key: aliases never merge.  Each is a full report that names its own key. */
  lemma OneReportEach(raw: Value, meta: Meta)
    requires Acceptable(raw)
    ensures var before, after := Entries(raw.fields), Entries(RegistryOf(raw.fields, meta));
            && |after| == |before| && UniqueKeys(after)
            && forall i | 0 <= i < |after| ::
                 && after[i].key == Canonical(before[i].key) && after[i].key in TOOL_IDS
                 && after[i].val.Obj? && IsToolReport(after[i].val.fields)
                 && Get(after[i].val.fields, ReportNames()[0]) == Str(after[i].key)
  {
    hide ToolsOf, ToolsFit, LooksLikeEnvelope, RegistryNames, ReportNames, TOOL_IDS, Entries, RegistryOf, IsToolReport;
    RegistryShape(raw, meta);
    ToolsMean(Entries(raw.fields), meta);
  }

  lemma ToolsMean(before: seq<Field>, meta: Meta)
    requires ToolsFit(before)
    ensures var after := ToolsOf(before, meta);
            && |after| == |before| && UniqueKeys(after)
            && forall i | 0 <= i < |after| ::
                 && after[i].key == Canonical(before[i].key) && after[i].key in TOOL_IDS
                 && after[i].val.Obj? && IsToolReport(after[i].val.fields)
                 && Get(after[i].val.fields, ReportNames()[0]) == Str(after[i].key)
  {
    hide Canonical, ReportOf, ReportFits, IsToolReport, ReportNames, TOOL_IDS;
    var after := ToolsOf(before, meta);
    forall i | 0 <= i < |after|
      ensures after[i].key in TOOL_IDS
      ensures after[i].val.Obj? && IsToolReport(after[i].val.fields)
          && Get(after[i].val.fields, ReportNames()[0]) == Str(after[i].key)
    {
      assert EntryFits(before[i]);
      ReportTwice(Canonical(before[i].key), before[i].val, meta, meta);
    }
  }

  /** A registry may name a tool by its alias or by its id, but not by both. */
  lemma AliasOrId(raw: Value)
    requires Acceptable(raw)
    ensures !(Has(Entries(raw.fields), ALIAS) && Has(Entries(raw.fields), ALIASED))
  {
    hide EntryFits, Entries;
    CanonicalMeans(ALIAS, ALIASED);
    var entries := Entries(raw.fields);
    assert forall i, j | 0 <= i < |entries| && 0 <= j < |entries| && i != j ::
        Canonical(entries[i].key) != Canonical(entries[j].key);
  }

  /** Normalising a registry that came out of normalisation, whatever the fixture
      says about itself by then, changes nothing. */
  lemma RegistryTwice(raw: Value, meta: Meta, later: Meta)
    requires Acceptable(raw)
    ensures var r := RegistryOf(raw.fields, meta);
            Acceptable(Obj(r)) && RegistryOf(r, later) == r
  {
    hide Canonical, ReportOf, ReportFits, IsToolReport, ReportNames, RegistryNames, LooksLikeEnvelope, Entries,
        TOOL_IDS;
    var r := RegistryOf(raw.fields, meta);
    var before := Entries(raw.fields);
    var after := ToolsOf(before, meta);
    RegistryShape(raw, meta);
    forall i | 0 <= i < |after|
      ensures EntryFits(after[i]) && Canonical(after[i].key) == after[i].key
      ensures ReportOf(after[i].key, after[i].val, later) == after[i].val
    {
      assert EntryFits(before[i]);
      ReportTwice(Canonical(before[i].key), before[i].val, meta, later);
      CanonicalMeans(before[i].key, before[i].key);
    }
    assert ToolsOf(after, later) == after;
    assert ToolsFit(after);
  }

  // ----- the conditions, with the names of the properties

  lemma FitsMeans(raw: Value)
    ensures Fits(raw) <==>
            && raw.Obj?
            && Get(raw.fields, "status").Str?
            && Get(raw.fields, "status").s in ["ok", "degraded", "missing", "blocked-by-policy", "untested"]
            && (Get(raw.fields, "transport").Str? ==>
                  Get(raw.fields, "transport").s in ["websocket", "sse", "http", "stdio", "fixture"])
  {
    hide Get;
  }

  lemma CapabilityCarries(raw: Value)
    requires Fits(raw)
    ensures var c, f := CapabilityOf(raw).fields, raw.fields;
            && Get(c, "status") == Get(f, "status")
            && Get(c, "fallback") == (if Get(f, "fallback").Str? then Get(f, "fallback") else Undefined)
            && Get(c, "transport") == (if Get(f, "transport").Str? then Get(f, "transport") else Undefined)
            && Get(c, "notes") == (if Get(f, "notes").Str? then Get(f, "notes") else Undefined)
  {
    hide Get, Fits, CapabilityOf;
    CapabilityKeeps(raw, 0);
    CapabilityKeeps(raw, 1);
    CapabilityKeeps(raw, 2);
    CapabilityKeeps(raw, 3);
    var n := CapabilityNames();
    assert n[0] == "status" && n[1] == "fallback" && n[2] == "transport" && n[3] == "notes";
  }

  lemma ReportMeans(raw: seq<Field>)
    ensures IsToolReport(raw) <==>
            && Get(raw, "tool").Str? && Get(raw, "version").Str? && Get(raw, "source").Str?
            && Get(raw, "capabilities").Obj? && Get(raw, "lastCheckedAt").Str? && Get(raw, "fixturesVersion").Str?
  {
    hide Get;
  }

  /** A report made for a bare entry. */
  lemma FreshCarries(toolId: string, capabilities: seq<Field>, meta: Meta)
    ensures var f := FreshReport(toolId, capabilities, meta);
            && Get(f, "tool") == Str(toolId) && Get(f, "version") == Str("") && Get(f, "source") == Str("fixture")
            && Get(f, "capabilities") == Obj(capabilities) && Get(f, "lastCheckedAt") == Str(meta.capturedAt)
            && Get(f, "fixturesVersion") == Str(meta.fixturesVersion)
  {
    var f := FreshReport(toolId, capabilities, meta);
    FreshKeys(toolId, capabilities, meta);
    hide Get, UniqueKeys;
    GetAt(f, 0);
    GetAt(f, 1);
    GetAt(f, 2);
    GetAt(f, 3);
    GetAt(f, 4);
    GetAt(f, 5);
  }

  lemma EnvelopeMeans(raw: seq<Field>)
    ensures EnvelopeFits(raw) <==>
            && Get(raw, "schemaVersion") == Num("1") && Get(raw, "snapshotAt").Str? && Get(raw, "daemonApiVersion").Str?
            && Get(raw, "fixturesVersion").Str? && Get(raw, "tools").Obj?
    ensures LooksLikeEnvelope(raw) <==>
            || Has(raw, "schemaVersion") || Has(raw, "snapshotAt") || Has(raw, "daemonApiVersion")
            || Has(raw, "fixturesVersion") || Has(raw, "tools")
  {
    hide Get, Has;
    var n := RegistryNames();
    assert n[0] == "schemaVersion" && n[1] == "snapshotAt" && n[2] == "daemonApiVersion";
    assert n[3] == "fixturesVersion" && n[4] == "tools";
  }

  /** The registry keeps what an envelope says of itself, and fills it in for a bare
      map of tools. */
  lemma RegistryCarries(raw: Value, meta: Meta)
    requires Acceptable(raw)
    ensures var r, f, bare := RegistryOf(raw.fields, meta), raw.fields, !LooksLikeEnvelope(raw.fields);
            && Get(r, "schemaVersion") == Num("1")
            && Get(r, "snapshotAt") == (if bare then Str(meta.capturedAt) else Get(f, "snapshotAt"))
            && Get(r, "daemonApiVersion") == (if bare then Str("0.1.0") else Get(f, "daemonApiVersion"))
            && Get(r, "fixturesVersion") == (if bare then Str(meta.fixturesVersion) else Get(f, "fixturesVersion"))
  {
    hide Get, Has, LooksLikeEnvelope, ToolsOf, ToolsFit, Entries;
    var tools := ToolsOf(Entries(raw.fields), meta);
    var n := RegistryNames();
    assert n[0] == "schemaVersion" && n[1] == "snapshotAt" && n[2] == "daemonApiVersion" && n[3] == "fixturesVersion";
    if LooksLikeEnvelope(raw.fields) {
      RegistryGet(Num(ONE), Get(raw.fields, n[1]), Get(raw.fields, n[2]), Get(raw.fields, n[3]), tools);
    } else {
      RegistryGet(Num(ONE), Str(meta.capturedAt), Str(API_VERSION), Str(meta.fixturesVersion), tools);
    }
  }
}
