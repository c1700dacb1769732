/** packages/fixture-replay/src/events.ts: the event log a replay client boots
    with, made from what a snapshot captured. */
module BaselineEvents {
  import opened Sorting
  import opened Json
  import opened EventStream

  datatype Envelope = Envelope(
    argv: Value, exit: Value, durationMs: Value, stdoutBytes: Value, stderrBytes: Value,
    redacted: Option<bool>, truncated: Option<bool>, tags: Option<seq<string>>)

  datatype Invocation = Invocation(name: string, envelope: Envelope)

  datatype ToolCapture = ToolCapture(present: bool, skipReason: Option<string>, captures: seq<Invocation>)

  datatype Tool = Tool(slug: string, capture: ToolCapture)

  /** The properties of `snapshot.captures` in their own order. */
  datatype Scenario = Scenario(capturedAt: int, captures: seq<Tool>)

  function ToolLe(nameLe: (string, string) -> bool): (Tool, Tool) -> bool {
    (x: Tool, y: Tool) => nameLe(x.slug, y.slug)
  }

  function InvocationLe(nameLe: (string, string) -> bool): (Invocation, Invocation) -> bool {
    (x: Invocation, y: Invocation) => nameLe(x.name, y.name)
  }

  function Otherwise<T>(o: Option<T>, default: T): T {
    if o.Some? then o.value else default
  }

  function Strings(s: seq<string>): Value {
    Arr(seq(|s|, i requires 0 <= i < |s| => Str(s[i])))
  }

  const NOT_PRESENT := "tool not present"
  const CAPABILITIES := "capabilities"
  const ADAPTER := "adapter"
  const TOOL_ABSENT := "tool.absent"
  const CAPTURED := "adapter.captured"

  function AbsentPayload(tool: Tool): Value {
    Obj([Field("tool", Str(tool.slug)), Field("reason", Str(Otherwise(tool.capture.skipReason, NOT_PRESENT)))])
  }

  function CapturedPayload(slug: string, name: string, e: Envelope): Value {
    Obj([Field("tool", Str(slug)), Field("invocation", Str(name)), Field("argv", e.argv), Field("exit", e.exit),
         Field("durationMs", e.durationMs), Field("stdoutBytes", e.stdoutBytes), Field("stderrBytes", e.stderrBytes),
         Field("redacted", Bool(Otherwise(e.redacted, false))), Field("truncated", Bool(Otherwise(e.truncated, false))),
         Field("tags", Strings(Otherwise(e.tags, [])))])
  }

  // ----- the specification: unnumbered events, then numbers

  datatype Draft = Draft(channel: string, kind: string, payload: Value)

  function AbsentDraft(tool: Tool): Draft {
    Draft(CAPABILITIES, TOOL_ABSENT, AbsentPayload(tool))
  }

  function CapturedDraft(slug: string, v: Invocation): Draft {
    Draft(ADAPTER, CAPTURED, CapturedPayload(slug, v.name, v.envelope))
  }

  function CapturedDrafts(slug: string, captures: seq<Invocation>): seq<Draft> {
    if captures == [] then []
    else CapturedDrafts(slug, captures[..|captures| - 1]) + [CapturedDraft(slug, captures[|captures| - 1])]
  }

  function DraftsOf(tool: Tool, nameLe: (string, string) -> bool): seq<Draft> {
    if tool.capture.present then CapturedDrafts(tool.slug, Sort(tool.capture.captures, InvocationLe(nameLe)))
    else [AbsentDraft(tool)]
  }

  function Drafts(tools: seq<Tool>, nameLe: (string, string) -> bool): seq<Draft> {
    if tools == [] then [] else Drafts(tools[..|tools| - 1], nameLe) + DraftsOf(tools[|tools| - 1], nameLe)
  }

  function Numbered(drafts: seq<Draft>, ts: int): (events: seq<Event>)
    ensures |events| == |drafts|
    ensures forall i | 0 <= i < |events| :: events[i].seqNo == i + 1
  {
    seq(|drafts|, i requires 0 <= i < |drafts| =>
        Event(drafts[i].channel, i + 1, ts, drafts[i].kind, drafts[i].payload))
  }

  function Baseline(s: Scenario, nameLe: (string, string) -> bool): seq<Event> {
    Numbered(Drafts(Sort(s.captures, ToolLe(nameLe)), nameLe), s.capturedAt)
  }

  lemma NumberedMore(drafts: seq<Draft>, d: Draft, ts: int)
    ensures Numbered(drafts + [d], ts) == Numbered(drafts, ts) + [Event(d.channel, |drafts| + 1, ts, d.kind, d.payload)]
  {
  }

  method SynthesizeBaselineEvents(s: Scenario, nameLe: (string, string) -> bool) returns (events: seq<Event>)
    ensures events == Baseline(s, nameLe)
  {
    hide AbsentPayload, CapturedPayload, Numbered, Sort;
    events := [];
    var seqNo: nat := 1;
    var tools := Sort(s.captures, ToolLe(nameLe));
    ghost var drafts := [];
    for i := 0 to |tools|
      invariant drafts == Drafts(tools[..i], nameLe)
      invariant events == Numbered(drafts, s.capturedAt) && seqNo == |drafts| + 1
    {
      var tool := tools[i];
      assert tools[..i + 1][..i] == tools[..i];
      ghost var before := drafts;
      if !tool.capture.present {
        NumberedMore(drafts, AbsentDraft(tool), s.capturedAt);
        events := events + [Event(CAPABILITIES, seqNo, s.capturedAt, TOOL_ABSENT, AbsentPayload(tool))];
        seqNo := seqNo + 1;
        drafts := drafts + [AbsentDraft(tool)];
      } else {
        var invocations := Sort(tool.capture.captures, InvocationLe(nameLe));
        for j := 0 to |invocations|
          invariant drafts == before + CapturedDrafts(tool.slug, invocations[..j])
          invariant events == Numbered(drafts, s.capturedAt) && seqNo == |drafts| + 1
        {
          var v := invocations[j];
          assert invocations[..j + 1][..j] == invocations[..j];
          NumberedMore(drafts, CapturedDraft(tool.slug, v), s.capturedAt);
          events := events + [Event(ADAPTER, seqNo, s.capturedAt, CAPTURED,
              CapturedPayload(tool.slug, v.name, v.envelope))];
          seqNo := seqNo + 1;
          drafts := drafts + [CapturedDraft(tool.slug, v)];
        }
        assert invocations[..|invocations|] == invocations;
      }
    }
    assert tools[..|tools|] == tools;
  }

  // ----- one event for each thing captured or missing

  ghost function CapturedTally(slug: string, captures: seq<Invocation>): multiset<Draft> {
    if captures == [] then multiset{}
    else multiset{CapturedDraft(slug, captures[0])} + CapturedTally(slug, captures[1..])
  }

  ghost function TallyOf(tool: Tool): multiset<Draft> {
    if tool.capture.present then CapturedTally(tool.slug, tool.capture.captures) else multiset{AbsentDraft(tool)}
  }

  /** In the scenario's own order: one event for each absent tool and one for
      each invocation of a present one. */
  ghost function Tally(tools: seq<Tool>): multiset<Draft> {
    if tools == [] then multiset{} else TallyOf(tools[0]) + Tally(tools[1..])
  }

  lemma {:induction false} CapturedTallyMore(slug: string, captures: seq<Invocation>, v: Invocation)
    ensures CapturedTally(slug, captures + [v]) == CapturedTally(slug, captures) + multiset{CapturedDraft(slug, v)}
  {
    hide CapturedDraft;
    if captures == [] {
      assert ([] + [v])[1..] == [];
    } else {
      assert (captures + [v])[1..] == captures[1..] + [v];
      CapturedTallyMore(slug, captures[1..], v);
    }
  }

  lemma {:induction false} CapturedDraftsTally(slug: string, captures: seq<Invocation>)
    ensures multiset(CapturedDrafts(slug, captures)) == CapturedTally(slug, captures)
  {
    hide CapturedDraft;
    if captures != [] {
      var n := |captures| - 1;
      CapturedDraftsTally(slug, captures[..n]);
      CapturedTallyMore(slug, captures[..n], captures[n]);
      assert captures == captures[..n] + [captures[n]];
    }
  }

  lemma {:induction false} CapturedTallyInsert(slug: string, v: Invocation, t: seq<Invocation>,
      le: (Invocation, Invocation) -> bool)
    ensures CapturedTally(slug, Insert(v, t, le)) == multiset{CapturedDraft(slug, v)} + CapturedTally(slug, t)
  {
    hide CapturedDraft;
    if t == [] || le(v, t[0]) {
      assert ([v] + t)[1..] == t;
    } else {
      CapturedTallyInsert(slug, v, t[1..], le);
      assert ([t[0]] + Insert(v, t[1..], le))[1..] == Insert(v, t[1..], le);
    }
  }

  lemma {:induction false} CapturedTallySort(slug: string, s: seq<Invocation>, le: (Invocation, Invocation) -> bool)
    ensures CapturedTally(slug, Sort(s, le)) == CapturedTally(slug, s)
  {
    if s != [] {
      CapturedTallySort(slug, s[1..], le);
      CapturedTallyInsert(slug, s[0], Sort(s[1..], le), le);
    }
  }

  lemma DraftsOfTally(tool: Tool, nameLe: (string, string) -> bool)
    ensures multiset(DraftsOf(tool, nameLe)) == TallyOf(tool)
  {
    hide CapturedDraft, AbsentDraft;
    var le := InvocationLe(nameLe);
    CapturedTallySort(tool.slug, tool.capture.captures, le);
    CapturedDraftsTally(tool.slug, Sort(tool.capture.captures, le));
  }

  lemma {:induction false} TallyMore(tools: seq<Tool>, tool: Tool)
    ensures Tally(tools + [tool]) == Tally(tools) + TallyOf(tool)
  {
    hide TallyOf;
    if tools == [] {
      assert ([] + [tool])[1..] == [];
    } else {
      assert (tools + [tool])[1..] == tools[1..] + [tool];
      TallyMore(tools[1..], tool);
    }
  }

  lemma {:induction false} DraftsTally(tools: seq<Tool>, nameLe: (string, string) -> bool)
    ensures multiset(Drafts(tools, nameLe)) == Tally(tools)
  {
    hide TallyOf, DraftsOf;
    if tools != [] {
      var n := |tools| - 1;
      DraftsTally(tools[..n], nameLe);
      DraftsOfTally(tools[n], nameLe);
      TallyMore(tools[..n], tools[n]);
      assert tools == tools[..n] + [tools[n]];
    }
  }

  lemma {:induction false} TallyInsert(tool: Tool, t: seq<Tool>, le: (Tool, Tool) -> bool)
    ensures Tally(Insert(tool, t, le)) == TallyOf(tool) + Tally(t)
  {
    hide TallyOf;
    if t == [] || le(tool, t[0]) {
      assert ([tool] + t)[1..] == t;
    } else {
      TallyInsert(tool, t[1..], le);
      assert ([t[0]] + Insert(tool, t[1..], le))[1..] == Insert(tool, t[1..], le);
    }
  }

  lemma {:induction false} TallySort(tools: seq<Tool>, le: (Tool, Tool) -> bool)
    ensures Tally(Sort(tools, le)) == Tally(tools)
  {
    hide TallyOf;
    if tools != [] {
      TallySort(tools[1..], le);
      TallyInsert(tools[0], Sort(tools[1..], le), le);
    }
  }

  function DraftOf(e: Event): Draft {
    Draft(e.channel, e.kind, e.payload)
  }

  /** The log holds one event for each absent tool and for each invocation of a
      present one, and no others; they are numbered from 1 and all bear the time
      of the capture. */
  lemma BaselineOnce(s: Scenario, nameLe: (string, string) -> bool)
    ensures var log := Baseline(s, nameLe);
            && multiset(seq(|log|, i requires 0 <= i < |log| => DraftOf(log[i]))) == Tally(s.captures)
            && forall i | 0 <= i < |log| :: log[i].seqNo == i + 1 && log[i].ts == s.capturedAt
  {
    hide Tally, Drafts, Sort;
    var log := Baseline(s, nameLe);
    var drafts := Drafts(Sort(s.captures, ToolLe(nameLe)), nameLe);
    DraftsTally(Sort(s.captures, ToolLe(nameLe)), nameLe);
    TallySort(s.captures, ToolLe(nameLe));
    assert seq(|log|, i requires 0 <= i < |log| => DraftOf(log[i])) == drafts;
  }

  // ----- the log is in order

  /** What an event is about: an absent tool, or an invocation of a present one. */
  datatype Origin = Origin(tool: Tool, invocation: Option<Invocation>)

  function DraftFrom(o: Origin): Draft {
    if o.invocation.Some? then CapturedDraft(o.tool.slug, o.invocation.value) else AbsentDraft(o.tool)
  }

  function OriginsOf(tool: Tool, nameLe: (string, string) -> bool): seq<Origin> {
    if tool.capture.present then
      var sorted := Sort(tool.capture.captures, InvocationLe(nameLe));
      seq(|sorted|, i requires 0 <= i < |sorted| => Origin(tool, Some(sorted[i])))
    else [Origin(tool, None)]
  }

  function Origins(tools: seq<Tool>, nameLe: (string, string) -> bool): seq<Origin> {
    if tools == [] then [] else Origins(tools[..|tools| - 1], nameLe) + OriginsOf(tools[|tools| - 1], nameLe)
  }

  lemma {:induction false} CapturedDraftsAt(slug: string, captures: seq<Invocation>)
    ensures |CapturedDrafts(slug, captures)| == |captures|
    ensures forall i | 0 <= i < |captures| :: CapturedDrafts(slug, captures)[i] == CapturedDraft(slug, captures[i])
  {
    hide CapturedDraft;
    if captures != [] { CapturedDraftsAt(slug, captures[..|captures| - 1]); }
  }

  ghost predicate Drafted(origins: seq<Origin>, drafts: seq<Draft>) {
    |origins| == |drafts| && forall i | 0 <= i < |origins| :: drafts[i] == DraftFrom(origins[i])
  }

  lemma OriginsOfDrafts(tool: Tool, nameLe: (string, string) -> bool)
    ensures Drafted(OriginsOf(tool, nameLe), DraftsOf(tool, nameLe))
    ensures forall o | o in OriginsOf(tool, nameLe) :: o.tool == tool
  {
    hide CapturedDraft, AbsentDraft, Sort;
    CapturedDraftsAt(tool.slug, Sort(tool.capture.captures, InvocationLe(nameLe)));
  }

  lemma {:induction false} OriginsDrafts(tools: seq<Tool>, nameLe: (string, string) -> bool)
    ensures Drafted(Origins(tools, nameLe), Drafts(tools, nameLe))
    ensures forall o | o in Origins(tools, nameLe) :: o.tool in tools
  {
    hide OriginsOf, DraftsOf, DraftFrom;
    if tools != [] {
      var n := |tools| - 1;
      OriginsDrafts(tools[..n], nameLe);
      OriginsOfDrafts(tools[n], nameLe);
      assert tools == tools[..n] + [tools[n]];
    }
  }

  /** By tool, and for one tool by invocation. */
  predicate InOrder(a: Origin, b: Origin, nameLe: (string, string) -> bool) {
    && nameLe(a.tool.slug, b.tool.slug)
    && (a.tool.slug == b.tool.slug ==>
          a.tool == b.tool && a.invocation.Some? && b.invocation.Some?
          && nameLe(a.invocation.value.name, b.invocation.value.name))
  }

  predicate OtherSlug(x: Tool, y: Tool) {
    x.slug != y.slug
  }

  lemma OriginsOfOrdered(tool: Tool, nameLe: (string, string) -> bool)
    requires TotalPreorder(nameLe)
    ensures var os := OriginsOf(tool, nameLe);
            forall i, j | 0 <= i < j < |os| :: InOrder(os[i], os[j], nameLe)
  {
    ByNameTotal(nameLe);
    assert nameLe(tool.slug, tool.slug);
    hide TotalPreorder;
    var sorted := Sort(tool.capture.captures, InvocationLe(nameLe));
    SortSorted(tool.capture.captures, InvocationLe(nameLe));
    var os := OriginsOf(tool, nameLe);
    forall i, j | 0 <= i < j < |os|
      ensures InOrder(os[i], os[j], nameLe)
    {
      assert InvocationLe(nameLe)(sorted[i], sorted[j]);
    }
  }

  lemma {:induction false} OriginsOrdered(tools: seq<Tool>, nameLe: (string, string) -> bool)
    requires TotalPreorder(nameLe) && SortedBy(tools, ToolLe(nameLe)) && Pairwise(tools, OtherSlug)
    ensures var os := Origins(tools, nameLe);
            forall i, j | 0 <= i < j < |os| :: InOrder(os[i], os[j], nameLe)
  {
    hide OriginsOf, TotalPreorder;
    if tools != [] {
      var n := |tools| - 1;
      OriginsOrdered(tools[..n], nameLe);
      OriginsOfOrdered(tools[n], nameLe);
      OriginsDrafts(tools[..n], nameLe);
      OriginsOfDrafts(tools[n], nameLe);
      var early, late := Origins(tools[..n], nameLe), OriginsOf(tools[n], nameLe);
      forall a, b | a in early && b in late
        ensures InOrder(a, b, nameLe)
      {
        var k :| 0 <= k < n && tools[..n][k] == a.tool;
        assert ToolLe(nameLe)(tools[k], tools[n]) && OtherSlug(tools[k], tools[n]);
      }
      OrderedConcat(early, late, nameLe);
    }
  }

  lemma OrderedConcat(early: seq<Origin>, late: seq<Origin>, nameLe: (string, string) -> bool)
    requires forall i, j | 0 <= i < j < |early| :: InOrder(early[i], early[j], nameLe)
    requires forall i, j | 0 <= i < j < |late| :: InOrder(late[i], late[j], nameLe)
    requires forall a, b | a in early && b in late :: InOrder(a, b, nameLe)
    ensures var os := early + late;
            forall i, j | 0 <= i < j < |os| :: InOrder(os[i], os[j], nameLe)
  {
    hide InOrder;
    var os := early + late;
    forall i, j | 0 <= i < j < |os|
      ensures InOrder(os[i], os[j], nameLe)
    {
      if j < |early| {
        assert os[i] == early[i] && os[j] == early[j];
      } else if i < |early| {
        assert os[i] in early && os[j] in late;
      } else {
        assert os[i] == late[i - |early|] && os[j] == late[j - |early|];
      }
    }
  }

  /** The log goes through the tools in the order of their slugs, and through the
      invocations of each in the order of their names. */
  lemma BaselineOrdered(s: Scenario, nameLe: (string, string) -> bool) returns (origins: seq<Origin>)
    requires TotalPreorder(nameLe) && Pairwise(s.captures, OtherSlug)
    ensures var log := Baseline(s, nameLe);
            && |origins| == |log|
            && (forall i | 0 <= i < |log| :: DraftOf(log[i]) == DraftFrom(origins[i]) && origins[i].tool in s.captures)
            && (forall i, j | 0 <= i < j < |log| :: InOrder(origins[i], origins[j], nameLe))
  {
    hide DraftFrom, InOrder, Pairwise, SortedBy, TotalPreorder, Drafts, Origins, Sort;
    var tools := Sort(s.captures, ToolLe(nameLe));
    ByNameTotal(nameLe);
    SortSorted(s.captures, ToolLe(nameLe));
    SortPairwise(s.captures, ToolLe(nameLe), OtherSlug);
    SortMembers(s.captures, ToolLe(nameLe));
    origins := Origins(tools, nameLe);
    OriginsDrafts(tools, nameLe);
    OriginsOrdered(tools, nameLe);
    assert forall i | 0 <= i < |origins| :: origins[i] in origins;
  }

  // ----- the order in which the snapshot lists things does not matter

  lemma ByNameTotal(nameLe: (string, string) -> bool)
    requires TotalPreorder(nameLe)
    ensures TotalPreorder(ToolLe(nameLe)) && TotalPreorder(InvocationLe(nameLe))
  {
    var le, ve := ToolLe(nameLe), InvocationLe(nameLe);
    forall x, y
      ensures le(x, y) || le(y, x)
    {
      assert nameLe(x.slug, y.slug) || nameLe(y.slug, x.slug);
    }
    forall x, y, z | le(x, y) && le(y, z)
      ensures le(x, z)
    {
      assert nameLe(x.slug, y.slug) && nameLe(y.slug, z.slug);
    }
    forall x, y
      ensures ve(x, y) || ve(y, x)
    {
      assert nameLe(x.name, y.name) || nameLe(y.name, x.name);
    }
    forall x, y, z | ve(x, y) && ve(y, z)
      ensures ve(x, z)
    {
      assert nameLe(x.name, y.name) && nameLe(y.name, z.name);
    }
  }

  /** The same tool with its invocations listed in another order. */
  ghost predicate SameTool(t: Tool, u: Tool) {
    && t.slug == u.slug && t.capture.present == u.capture.present && t.capture.skipReason == u.capture.skipReason
    && multiset(t.capture.captures) == multiset(u.capture.captures)
  }

  ghost predicate SameTools(s: seq<Tool>, t: seq<Tool>) {
    |s| == |t| && forall i | 0 <= i < |s| :: SameTool(s[i], t[i])
  }

  lemma {:induction false} InsertSame(x: Tool, y: Tool, s: seq<Tool>, t: seq<Tool>, nameLe: (string, string) -> bool)
    requires SameTool(x, y) && SameTools(s, t)
    ensures SameTools(Insert(x, s, ToolLe(nameLe)), Insert(y, t, ToolLe(nameLe)))
  {
    if s != [] && !nameLe(x.slug, s[0].slug) { InsertSame(x, y, s[1..], t[1..], nameLe); }
  }

  lemma {:induction false} SortSame(s: seq<Tool>, t: seq<Tool>, nameLe: (string, string) -> bool)
    requires SameTools(s, t)
    ensures SameTools(Sort(s, ToolLe(nameLe)), Sort(t, ToolLe(nameLe)))
  {
    hide SameTool;
    if s != [] {
      SortSame(s[1..], t[1..], nameLe);
      InsertSame(s[0], t[0], Sort(s[1..], ToolLe(nameLe)), Sort(t[1..], ToolLe(nameLe)), nameLe);
    }
  }

  ghost predicate NamesUntied(tools: seq<Tool>, nameLe: (string, string) -> bool) {
    forall tool | tool in tools :: Untied(tool.capture.captures, InvocationLe(nameLe))
  }

  lemma DraftsOfSame(t: Tool, u: Tool, nameLe: (string, string) -> bool)
    requires TotalPreorder(nameLe) && SameTool(t, u) && Untied(t.capture.captures, InvocationLe(nameLe))
    ensures DraftsOf(t, nameLe) == DraftsOf(u, nameLe)
  {
    hide CapturedDraft, CapturedDrafts, TotalPreorder, Untied, Sort, InvocationLe;
    ByNameTotal(nameLe);
    SortForgets(t.capture.captures, u.capture.captures, InvocationLe(nameLe));
  }

  lemma {:induction false} DraftsSame(s: seq<Tool>, t: seq<Tool>, nameLe: (string, string) -> bool)
    requires TotalPreorder(nameLe) && SameTools(s, t) && NamesUntied(s, nameLe)
    ensures Drafts(s, nameLe) == Drafts(t, nameLe)
  {
    hide DraftsOf, SameTool, TotalPreorder, Untied, InvocationLe;
    if s != [] {
      var n := |s| - 1;
      DraftsSame(s[..n], t[..n], nameLe);
      assert s[n] in s && SameTool(s[n], t[n]);
      DraftsOfSame(s[n], t[n], nameLe);
    }
  }

  /** The same snapshot gives the same log, however it lists its tools and their
      invocations, as long as no two of them compare equal by name. */
  lemma SameSnapshot(a: Scenario, b: Scenario, shuffled: seq<Tool>, nameLe: (string, string) -> bool)
    requires TotalPreorder(nameLe)
    requires a.capturedAt == b.capturedAt && multiset(shuffled) == multiset(a.captures)
        && SameTools(shuffled, b.captures)
    requires Untied(a.captures, ToolLe(nameLe)) && NamesUntied(a.captures, nameLe)
    ensures Baseline(a, nameLe) == Baseline(b, nameLe)
  {
    hide SameTools, SameTool, TotalPreorder, Untied, Drafts, Numbered;
    ByNameTotal(nameLe);
    SortForgets(a.captures, shuffled, ToolLe(nameLe));
    SortSame(shuffled, b.captures, nameLe);
    SortMembers(a.captures, ToolLe(nameLe));
    DraftsSame(Sort(a.captures, ToolLe(nameLe)), Sort(b.captures, ToolLe(nameLe)), nameLe);
  }

  // ----- what the events carry

  lemma AbsentCarries(tool: Tool)
    ensures var d := AbsentDraft(tool);
            && d.channel == "capabilities" && d.kind == "tool.absent" && d.payload.Obj?
            && Get(d.payload.fields, "tool") == Str(tool.slug)
            && Get(d.payload.fields, "reason")
               == Str(if tool.capture.skipReason.Some? then tool.capture.skipReason.value else "tool not present")
  {
    var f := AbsentPayload(tool).fields;
    assert f[0].key[0] == 't' && f[1].key[0] == 'r';
    GetAt(f, 0);
    GetAt(f, 1);
  }

  lemma CapturedKeys(slug: string, name: string, e: Envelope)
    ensures CapturedPayload(slug, name, e).Obj? && |CapturedPayload(slug, name, e).fields| == 10
    ensures UniqueKeys(CapturedPayload(slug, name, e).fields)
  {
    var f := CapturedPayload(slug, name, e).fields;
    assert forall i | 0 <= i < 10 :: |f[i].key| == [4, 10, 4, 4, 10, 11, 11, 8, 9, 4][i];
    assert f[0].key[1] == 'o' && f[2].key[1] == 'r' && f[3].key[1] == 'x' && f[9].key[1] == 'a';
    assert f[1].key[0] == 'i' && f[4].key[0] == 'd' && f[5].key[3] == 'o' && f[6].key[3] == 'e';
  }

  lemma CapturedCarries(slug: string, v: Invocation)
    ensures var d, e := CapturedDraft(slug, v), v.envelope;
            && d.channel == "adapter" && d.kind == "adapter.captured" && d.payload.Obj?
            && var f := d.payload.fields;
               && Get(f, "tool") == Str(slug) && Get(f, "invocation") == Str(v.name)
               && Get(f, "argv") == e.argv && Get(f, "exit") == e.exit && Get(f, "durationMs") == e.durationMs
               && Get(f, "stdoutBytes") == e.stdoutBytes && Get(f, "stderrBytes") == e.stderrBytes
               && Get(f, "redacted") == Bool(e.redacted == Some(true))
               && Get(f, "truncated") == Bool(e.truncated == Some(true))
               && Get(f, "tags") == Strings(if e.tags.Some? then e.tags.value else [])
  {
    CapturedKeys(slug, v.name, v.envelope);
    var f := CapturedPayload(slug, v.name, v.envelope).fields;
    hide Get, UniqueKeys;
    GetAt(f, 0);
    GetAt(f, 1);
    GetAt(f, 2);
    GetAt(f, 3);
    GetAt(f, 4);
    GetAt(f, 5);
    GetAt(f, 6);
    GetAt(f, 7);
    GetAt(f, 8);
    GetAt(f, 9);
  }
}
