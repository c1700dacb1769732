/** packages/fixture-replay/src/client.ts: an in-memory client that logs events,
    records adapter calls and tracks the stages reached. */
module ReplayClient {
  import opened Sorting
  import opened Json
  import opened EventStream
  import opened Stages
  import opened BaselineEvents

  datatype CallRecord = CallRecord(adapter: string, methodName: string, tickMs: int, emittedEventSeq: nat,
      toolPresent: bool)

  datatype Marker = Marker(stage: StageId, reason: string, tickMs: int)

  /** The fields that change.  `reached` is a JavaScript `Set` in insertion
      order. */
  datatype ClientState = ClientState(closed: bool, events: seq<Event>, calls: seq<CallRecord>, reached: seq<StageId>,
      markers: seq<Marker>)

  /** One call of the client.  `now` is what its clock reads. */
  datatype Op =
    | CallAdapter(adapter: string, methodName: string, now: int)
    | MarkStageReached(stage: StageId, reason: Option<string>, now: int)
    | Emit(event: Event)
    | Close

  const INVOKED := "adapter.invoked"
  const DEGRADED := "adapter.degraded"
  const EXPLICIT := "explicit"
  const BY_ADAPTER := "adapter:"

  function Capture(s: Scenario, adapter: string): Option<ToolCapture> {
    CaptureIn(s.captures, adapter)
  }

  function CaptureIn(tools: seq<Tool>, adapter: string): Option<ToolCapture> {
    if tools == [] then None
    else if tools[0].slug == adapter then Some(tools[0].capture)
    else CaptureIn(tools[1..], adapter)
  }

  predicate Present(s: Scenario, adapter: string) {
    Capture(s, adapter).Some? && Capture(s, adapter).value.present
  }

  function Reason(s: Scenario, adapter: string): string {
    if Capture(s, adapter).Some? then Otherwise(Capture(s, adapter).value.skipReason, NOT_PRESENT) else NOT_PRESENT
  }

  function CallPayload(s: Scenario, adapter: string, methodName: string): Value {
    if Present(s, adapter) then Obj([Field("tool", Str(adapter)), Field("method", Str(methodName))])
    else Obj([Field("tool", Str(adapter)), Field("method", Str(methodName)), Field("reason", Str(Reason(s, adapter)))])
  }

  /** The event a call record stands for. */
  function CallEvent(s: Scenario, c: CallRecord): Event {
    var kind := if c.toolPresent then INVOKED else DEGRADED;
    Event(ADAPTER, c.emittedEventSeq, s.capturedAt, kind, CallPayload(s, c.adapter, c.methodName))
  }

  function NextSeq(events: seq<Event>): nat {
    if events == [] then 1 else events[|events| - 1].seqNo + 1
  }

  // ----- the client as a value

  function Touch(c: ClientState, stage: StageId, reason: string, tickMs: int): ClientState {
    if stage in c.reached then c
    else c.(reached := c.reached + [stage], markers := c.markers + [Marker(stage, reason, tickMs)])
  }

  function TouchAll(c: ClientState, stages: seq<StageId>, reason: string, tickMs: int): ClientState {
    if stages == [] then c
    else Touch(TouchAll(c, stages[..|stages| - 1], reason, tickMs), stages[|stages| - 1], reason, tickMs)
  }

  function Recorded(s: Scenario, c: ClientState, adapter: string, methodName: string, tickMs: int): ClientState {
    var call := CallRecord(adapter, methodName, tickMs, NextSeq(c.events), Present(s, adapter));
    c.(events := c.events + [CallEvent(s, call)], calls := c.calls + [call])
  }

  function Apply(s: Scenario, bootMs: int, c: ClientState, op: Op): ClientState {
    if c.closed then c
    else
      match op
      case CallAdapter(adapter, name, now) =>
        TouchAll(Recorded(s, c, adapter, name, now - bootMs), StagesOf(adapter), BY_ADAPTER + adapter, now - bootMs)
      case MarkStageReached(stage, reason, now) => Touch(c, stage, Otherwise(reason, EXPLICIT), now - bootMs)
      case Emit(e) => c.(events := c.events + [e.(seqNo := Max(e.seqNo, NextSeq(c.events)))])
      case Close => c.(closed := true)
  }

  function Run(s: Scenario, bootMs: int, c: ClientState, ops: seq<Op>): ClientState {
    if ops == [] then c else Apply(s, bootMs, Run(s, bootMs, c, ops[..|ops| - 1]), ops[|ops| - 1])
  }

  function Boot(s: Scenario, nameLe: (string, string) -> bool): ClientState {
    ClientState(false, Baseline(s, nameLe), [], [], [])
  }

  // ----- the client as an object

  datatype Answer<+T> = Answered(value: T) | CalledAfterClose

  /** What `callAdapter` answers. */
  function CallAnswer(s: Scenario, c: ClientState, adapter: string): Answer<Option<ToolCapture>> {
    if c.closed then CalledAfterClose else Answered(Capture(s, adapter))
  }

  class Client {
    const scenario: Scenario
    const bootMs: int
    var closed: bool
    var events: seq<Event>
    var calls: seq<CallRecord>
    var reachedStages: seq<StageId>
    var stageMarkers: seq<Marker>

    function State(): ClientState
      reads this
    {
      ClientState(closed, events, calls, reachedStages, stageMarkers)
    }

    constructor (scenario: Scenario, nameLe: (string, string) -> bool, bootMs: int)
      ensures this.scenario == scenario && this.bootMs == bootMs
      ensures State() == Boot(scenario, nameLe)
    {
      var baseline := SynthesizeBaselineEvents(scenario, nameLe);
      this.scenario := scenario;
      this.bootMs := bootMs;
      closed := false;
      events := baseline;
      calls := [];
      reachedStages := [];
      stageMarkers := [];
    }

    method RecordStagesForAdapter(adapter: string, now: int)
      modifies this
      ensures State() == TouchAll(old(State()), StagesOf(adapter), BY_ADAPTER + adapter, now - bootMs)
    {
      var stages := StageForAdapter(adapter);
      for i := 0 to |stages|
        invariant State() == TouchAll(old(State()), stages[..i], BY_ADAPTER + adapter, now - bootMs)
      {
        assert stages[..i + 1][..i] == stages[..i];
        if stages[i] !in reachedStages {
          reachedStages := reachedStages + [stages[i]];
          stageMarkers := stageMarkers + [Marker(stages[i], BY_ADAPTER + adapter, now - bootMs)];
        }
      }
      assert stages[..|stages|] == stages;
    }

    method CallAdapter(adapter: string, methodName: string, now: int) returns (r: Answer<Option<ToolCapture>>)
      modifies this
      ensures State() == Apply(scenario, bootMs, old(State()), Op.CallAdapter(adapter, methodName, now))
      ensures r == CallAnswer(scenario, old(State()), adapter)
    {
      hide CallPayload, StagesOf, Capture, TouchAll;
      if closed { return CalledAfterClose; }
      var capture := Capture(scenario, adapter);
      var present := capture.Some? && capture.value.present;
      var seqNo := NextSeq(events);
      var kind := if present then INVOKED else DEGRADED;
      var event := Event(ADAPTER, seqNo, scenario.capturedAt, kind, CallPayload(scenario, adapter, methodName));
      events := events + [event];
      calls := calls + [CallRecord(adapter, methodName, now - bootMs, seqNo, present)];
      RecordStagesForAdapter(adapter, now);
      return Answered(capture);
    }

    method GetAdapterInvocation(adapter: string, invocation: string) returns (r: Answer<Option<Envelope>>)
      ensures r.CalledAfterClose? <==> closed
      ensures r.Answered? && r.value.Some? ==>
                Present(scenario, adapter)
                    && Invocation(invocation, r.value.value) in Capture(scenario, adapter).value.captures
      ensures r.Answered? && r.value.None? && Present(scenario, adapter) ==>
                forall v | v in Capture(scenario, adapter).value.captures :: v.name != invocation
    {
      if closed { return CalledAfterClose; }
      var capture := Capture(scenario, adapter);
      if capture.None? || !capture.value.present { return Answered(None); }
      var captures := capture.value.captures;
      for i := 0 to |captures|
        invariant forall j | 0 <= j < i :: captures[j].name != invocation
      {
        if captures[i].name == invocation { return Answered(Some(captures[i].envelope)); }
      }
      return Answered(None);
    }

    method MarkStageReached(stage: StageId, reason: Option<string>, now: int) returns (r: Answer<()>)
      modifies this
      ensures State() == Apply(scenario, bootMs, old(State()), Op.MarkStageReached(stage, reason, now))
      ensures r == if old(closed) then CalledAfterClose else Answered(())
    {
      if closed { return CalledAfterClose; }
      if stage !in reachedStages {
        reachedStages := reachedStages + [stage];
        stageMarkers := stageMarkers + [Marker(stage, Otherwise(reason, EXPLICIT), now - bootMs)];
      }
      return Answered(());
    }

    method Emit(event: Event) returns (r: Answer<()>)
      modifies this
      ensures State() == Apply(scenario, bootMs, old(State()), Op.Emit(event))
      ensures r == if old(closed) then CalledAfterClose else Answered(())
    {
      if closed { return CalledAfterClose; }
      var expected := NextSeq(events);
      var adjusted := event;
      if event.seqNo < expected { adjusted := adjusted.(seqNo := expected); }
      events := events + [adjusted];
      return Answered(());
    }

    method Close()
      modifies this
      ensures State() == Apply(scenario, bootMs, old(State()), Op.Close)
    {
      if !closed { closed := true; }
    }
  }

  // ----- what a call answers

  /** What the interface documents: the capture if the adapter's tool was present,
      and null otherwise. */
  function DocumentedAnswer(s: Scenario, adapter: string): Option<ToolCapture> {
    if Present(s, adapter) then Capture(s, adapter) else None
  }

  /** An open client answers as documented exactly when the snapshot has no capture
      for the adapter or one of a present tool. */
  lemma AnswerDocumentedIff(s: Scenario, c: ClientState, adapter: string)
    requires !c.closed
    ensures CallAnswer(s, c, adapter) == Answered(DocumentedAnswer(s, adapter))
       <==> (Capture(s, adapter).Some? ==> Capture(s, adapter).value.present)
  {
  }

  lemma {:induction false} CaptureOfTool(tools: seq<Tool>, i: nat)
    requires i < |tools| && forall j, k | 0 <= j < k < |tools| :: tools[j].slug != tools[k].slug
    ensures CaptureIn(tools, tools[i].slug) == Some(tools[i].capture)
  {
    if i > 0 {
      assert tools[0].slug != tools[i].slug && tools[1..][i - 1] == tools[i];
      CaptureOfTool(tools[1..], i - 1);
    }
  }

  lemma {:induction false} CaptureFound(tools: seq<Tool>, adapter: string)
    ensures CaptureIn(tools, adapter).Some? ==> Tool(adapter, CaptureIn(tools, adapter).value) in tools
  {
    if tools != [] && tools[0].slug != adapter {
      CaptureFound(tools[1..], adapter);
    } else if tools != [] {
      assert tools[0] == Tool(adapter, tools[0].capture);
    }
  }

  /** It answers every call as documented exactly when every tool of the snapshot
      was present. */
  lemma AnswersDocumentedIff(s: Scenario, c: ClientState)
    requires !c.closed
    requires forall j, k | 0 <= j < k < |s.captures| :: s.captures[j].slug != s.captures[k].slug
    ensures (forall adapter :: CallAnswer(s, c, adapter) == Answered(DocumentedAnswer(s, adapter)))
       <==> forall tool | tool in s.captures :: tool.capture.present
  {
    if forall tool | tool in s.captures :: tool.capture.present {
      forall adapter
        ensures CallAnswer(s, c, adapter) == Answered(DocumentedAnswer(s, adapter))
      {
        CaptureFound(s.captures, adapter);
      }
    } else {
      var tool :| tool in s.captures && !tool.capture.present;
      var i :| 0 <= i < |s.captures| && s.captures[i] == tool;
      CaptureOfTool(s.captures, i);
      assert CallAnswer(s, c, tool.slug) != Answered(DocumentedAnswer(s, tool.slug));
    }
  }

  /** The snapshot of one absent tool: its capture is answered where null is
      documented. */
  lemma AbsentAnswered(slug: string, ts: int, nameLe: (string, string) -> bool)
    ensures var absent := ToolCapture(false, None, []);
            var s := Scenario(ts, [Tool(slug, absent)]);
            CallAnswer(s, Boot(s, nameLe), slug) == Answered(Some(absent)) && DocumentedAnswer(s, slug) == None
  {
  }

  // ----- nothing is rewritten

  lemma {:induction false} TouchKeeps(c: ClientState, stages: seq<StageId>, reason: string, tickMs: int)
    ensures var d := TouchAll(c, stages, reason, tickMs);
            d.events == c.events && d.calls == c.calls && d.closed == c.closed && c.reached <= d.reached
                && c.markers <= d.markers
  {
    if stages != [] { TouchKeeps(c, stages[..|stages| - 1], reason, tickMs); }
  }

  /** One call appends at most one event and one record, and never changes what
      is there. */
  lemma ApplyGrows(s: Scenario, bootMs: int, c: ClientState, op: Op)
    ensures var d := Apply(s, bootMs, c, op);
            c.events <= d.events && c.calls <= d.calls && c.reached <= d.reached && c.markers <= d.markers
                && (c.closed ==> d == c)
  {
    if op.CallAdapter? && !c.closed {
      var mid := Recorded(s, c, op.adapter, op.methodName, op.now - bootMs);
      TouchKeeps(mid, StagesOf(op.adapter), BY_ADAPTER + op.adapter, op.now - bootMs);
    }
  }

  /** The log, the records and the stages only ever grow at the end. */
  lemma {:induction false} AppendOnly(s: Scenario, bootMs: int, c: ClientState, ops: seq<Op>)
    ensures var d := Run(s, bootMs, c, ops);
            c.events <= d.events && c.calls <= d.calls && c.reached <= d.reached && c.markers <= d.markers
                && (c.closed ==> d == c)
  {
    if ops != [] {
      AppendOnly(s, bootMs, c, ops[..|ops| - 1]);
      ApplyGrows(s, bootMs, Run(s, bootMs, c, ops[..|ops| - 1]), ops[|ops| - 1]);
    }
  }

  // ----- what every reachable state satisfies

  ghost predicate Increasing(events: seq<Event>) {
    forall i, j | 0 <= i < j < |events| :: events[i].seqNo < events[j].seqNo
  }

  lemma IncreasingMore(events: seq<Event>, e: Event)
    requires Increasing(events) && e.seqNo >= NextSeq(events)
    ensures Increasing(events + [e])
  {
  }

  lemma ApplyIncreasing(s: Scenario, bootMs: int, c: ClientState, op: Op)
    requires Increasing(c.events)
    ensures Increasing(Apply(s, bootMs, c, op).events)
  {
    if op.CallAdapter? && !c.closed {
      var mid := Recorded(s, c, op.adapter, op.methodName, op.now - bootMs);
      TouchKeeps(mid, StagesOf(op.adapter), BY_ADAPTER + op.adapter, op.now - bootMs);
      IncreasingMore(c.events, mid.events[|c.events|]);
    } else if op.Emit? && !c.closed {
      IncreasingMore(c.events, op.event.(seqNo := Max(op.event.seqNo, NextSeq(c.events))));
    }
  }

  /** The sequence numbers of the log strictly increase in every reachable
      state. */
  lemma {:induction false} LogIncreasing(s: Scenario, bootMs: int, nameLe: (string, string) -> bool, ops: seq<Op>)
    ensures Increasing(Run(s, bootMs, Boot(s, nameLe), ops).events)
  {
    if ops != [] {
      LogIncreasing(s, bootMs, nameLe, ops[..|ops| - 1]);
      ApplyIncreasing(s, bootMs, Run(s, bootMs, Boot(s, nameLe), ops[..|ops| - 1]), ops[|ops| - 1]);
    }
  }

  /** The record is right about the tool, and its event is in the log. */
  ghost predicate Logged(s: Scenario, events: seq<Event>, call: CallRecord) {
    call.toolPresent == Present(s, call.adapter) && CallEvent(s, call) in events
  }

  ghost predicate AllLogged(s: Scenario, c: ClientState) {
    forall call | call in c.calls :: Logged(s, c.events, call)
  }

  lemma ApplyLogged(s: Scenario, bootMs: int, c: ClientState, op: Op)
    requires AllLogged(s, c)
    ensures AllLogged(s, Apply(s, bootMs, c, op))
  {
    hide CallPayload, StagesOf, Present, TouchAll;
    var d := Apply(s, bootMs, c, op);
    ApplyGrows(s, bootMs, c, op);
    assert forall e | e in c.events :: e in d.events;
    if op.CallAdapter? && !c.closed {
      var mid := Recorded(s, c, op.adapter, op.methodName, op.now - bootMs);
      TouchKeeps(mid, StagesOf(op.adapter), BY_ADAPTER + op.adapter, op.now - bootMs);
      assert forall call | call in d.calls :: call in c.calls || call == mid.calls[|c.calls|];
    }
  }

  lemma {:induction false} RunLogged(s: Scenario, bootMs: int, nameLe: (string, string) -> bool, ops: seq<Op>)
    ensures AllLogged(s, Run(s, bootMs, Boot(s, nameLe), ops))
  {
    if ops != [] {
      RunLogged(s, bootMs, nameLe, ops[..|ops| - 1]);
      ApplyLogged(s, bootMs, Run(s, bootMs, Boot(s, nameLe), ops[..|ops| - 1]), ops[|ops| - 1]);
    }
  }

  /** The record's number is that of exactly one event of the log.  That event
      says `adapter.invoked` if the tool is present and `adapter.degraded` if not,
      and carries the adapter and the method. */
  ghost predicate NamesOneEvent(s: Scenario, log: seq<Event>, call: CallRecord) {
    exists k | 0 <= k < |log| ::
      && (forall i | 0 <= i < |log| :: log[i].seqNo == call.emittedEventSeq <==> i == k)
      && (log[k].kind == INVOKED <==> Present(s, call.adapter))
      && (log[k].kind == DEGRADED <==> !Present(s, call.adapter))
      && log[k].payload == CallPayload(s, call.adapter, call.methodName)
      && call.toolPresent == Present(s, call.adapter)
  }

  lemma CallsNameOneEvent(s: Scenario, bootMs: int, nameLe: (string, string) -> bool, ops: seq<Op>)
    ensures var d := Run(s, bootMs, Boot(s, nameLe), ops);
            forall call | call in d.calls :: NamesOneEvent(s, d.events, call)
  {
    hide CallPayload, Run, Boot, Present;
    RunLogged(s, bootMs, nameLe, ops);
    LogIncreasing(s, bootMs, nameLe, ops);
    var d := Run(s, bootMs, Boot(s, nameLe), ops);
    forall call | call in d.calls
      ensures NamesOneEvent(s, d.events, call)
    {
      assert Logged(s, d.events, call);
      var k :| 0 <= k < |d.events| && d.events[k] == CallEvent(s, call);
      assert |INVOKED| != |DEGRADED|;
    }
  }

  // ----- what happened

  /** The calls that took effect: those before the client was closed. */
  function Effective(ops: seq<Op>): seq<Op> {
    if ops == [] then []
    else
      var before := ops[..|ops| - 1];
      if Close in before || ops[|ops| - 1].Close? then Effective(before) else Effective(before) + [ops[|ops| - 1]]
  }

  lemma {:induction false} ClosedIff(s: Scenario, bootMs: int, nameLe: (string, string) -> bool, ops: seq<Op>)
    ensures Run(s, bootMs, Boot(s, nameLe), ops).closed <==> Close in ops
  {
    hide StagesOf, Baseline, Recorded;
    if ops != [] {
      var n := |ops| - 1;
      ClosedIff(s, bootMs, nameLe, ops[..n]);
      assert ops == ops[..n] + [ops[n]];
      var c := Run(s, bootMs, Boot(s, nameLe), ops[..n]);
      if ops[n].CallAdapter? && !c.closed {
        var op := ops[n];
        var mid := Recorded(s, c, op.adapter, op.methodName, op.now - bootMs);
        TouchKeeps(mid, StagesOf(op.adapter), BY_ADAPTER + op.adapter, op.now - bootMs);
        RecordedOpen(s, c, op.adapter, op.methodName, op.now - bootMs);
      }
    }
  }

  lemma RecordedOpen(s: Scenario, c: ClientState, adapter: string, methodName: string, tickMs: int)
    ensures Recorded(s, c, adapter, methodName, tickMs).closed == c.closed
    ensures Recorded(s, c, adapter, methodName, tickMs).reached == c.reached
    ensures Recorded(s, c, adapter, methodName, tickMs).markers == c.markers
  {
  }

  // ----- the log and the records tell the calls apart

  predicate IsCall(op: Op) {
    op.CallAdapter?
  }

  predicate Logs(op: Op) {
    op.CallAdapter? || op.Emit?
  }

  /** The record of one call. */
  ghost predicate Records(call: CallRecord, op: Op, bootMs: int) {
    op.CallAdapter? && call.adapter == op.adapter && call.methodName == op.methodName && call.tickMs == op.now - bootMs
  }

  ghost predicate AllRecorded(calls: seq<CallRecord>, ops: seq<Op>, bootMs: int) {
    |calls| == |ops| && forall i | 0 <= i < |ops| :: Records(calls[i], ops[i], bootMs)
  }

  lemma ApplyRecords(s: Scenario, bootMs: int, c: ClientState, op: Op)
    requires !c.closed
    ensures var d := Apply(s, bootMs, c, op);
            && |d.events| == |c.events| + (if Logs(op) then 1 else 0)
            && |d.calls| == |c.calls| + (if IsCall(op) then 1 else 0)
            && c.calls <= d.calls
            && (IsCall(op) ==> Records(d.calls[|c.calls|], op, bootMs))
  {
    hide CallEvent, CallPayload, StagesOf, Present;
    if op.CallAdapter? {
      var mid := Recorded(s, c, op.adapter, op.methodName, op.now - bootMs);
      TouchKeeps(mid, StagesOf(op.adapter), BY_ADAPTER + op.adapter, op.now - bootMs);
    }
  }

  /** After any calls, the records are those of the adapter calls made while the
      client was open, in their order, and the log is longer than at boot by the
      number of such calls and of events emitted. */
  lemma {:induction false} HistoryOfCalls(s: Scenario, bootMs: int, nameLe: (string, string) -> bool, ops: seq<Op>)
    ensures var d := Run(s, bootMs, Boot(s, nameLe), ops);
            && AllRecorded(d.calls, Filtered(Effective(ops), IsCall), bootMs)
            && |d.events| == |Baseline(s, nameLe)| + |Filtered(Effective(ops), Logs)|
  {
    hide Apply, AllRecorded, Records, Baseline, Logs, IsCall;
    if ops != [] {
      var n := |ops| - 1;
      var before, op := ops[..n], ops[n];
      HistoryOfCalls(s, bootMs, nameLe, before);
      ClosedIff(s, bootMs, nameLe, before);
      var c := Run(s, bootMs, Boot(s, nameLe), before);
      ApplyGrows(s, bootMs, c, op);
      if !c.closed {
        ApplyRecords(s, bootMs, c, op);
        AllRecordedMore(c.calls, Apply(s, bootMs, c, op).calls, Filtered(Effective(before), IsCall), op, bootMs);
        CloseLogsNothing();
        if op.Close? {
          assert Filtered(Effective(before), IsCall) + [] == Filtered(Effective(before), IsCall);
        } else {
          FilteredAppend(Effective(before), [op], IsCall);
          FilteredAppend(Effective(before), [op], Logs);
          FilteredOne(op, IsCall);
          FilteredOne(op, Logs);
        }
      }
    } else {
      NothingRecorded(bootMs);
    }
  }

  lemma AllRecordedMore(calls: seq<CallRecord>, more: seq<CallRecord>, ops: seq<Op>, op: Op, bootMs: int)
    requires AllRecorded(calls, ops, bootMs) && calls <= more
    requires |more| == |calls| + (if IsCall(op) then 1 else 0) && (IsCall(op) ==> Records(more[|calls|], op, bootMs))
    ensures AllRecorded(more, ops + if IsCall(op) then [op] else [], bootMs)
  {
  }

  lemma NothingRecorded(bootMs: int)
    ensures AllRecorded([], [], bootMs)
  {
  }

  lemma CloseLogsNothing()
    ensures !IsCall(Close) && !Logs(Close)
  {
  }

  // ----- the stages reached

  predicate Touches(op: Op, stage: StageId) {
    match op
    case CallAdapter(adapter, _, _) => adapter in StageAdapters(stage)
    case MarkStageReached(marked, _, _) => marked == stage
    case _ => false
  }

  lemma {:induction false} TouchAllReaches(c: ClientState, stages: seq<StageId>, reason: string, tickMs: int)
    ensures forall stage ::
        stage in TouchAll(c, stages, reason, tickMs).reached <==> stage in c.reached || stage in stages
  {
    if stages != [] {
      TouchAllReaches(c, stages[..|stages| - 1], reason, tickMs);
      assert stages == stages[..|stages| - 1] + [stages[|stages| - 1]];
    }
  }

  lemma ApplyReaches(s: Scenario, bootMs: int, c: ClientState, op: Op)
    requires !c.closed
    ensures forall stage :: stage in Apply(s, bootMs, c, op).reached <==> stage in c.reached || Touches(op, stage)
  {
    hide StageAdapters, StagesOf, Recorded, TouchAll;
    if op.CallAdapter? {
      var mid := Recorded(s, c, op.adapter, op.methodName, op.now - bootMs);
      RecordedOpen(s, c, op.adapter, op.methodName, op.now - bootMs);
      TouchAllReaches(mid, StagesOf(op.adapter), BY_ADAPTER + op.adapter, op.now - bootMs);
      StagesOfMeans(op.adapter);
    }
  }

  /** A stage has been reached exactly when, while the client was open, one of
      its adapters was called or it was marked. */
  lemma {:induction false} StagesReached(s: Scenario, bootMs: int, nameLe: (string, string) -> bool, ops: seq<Op>)
    ensures forall stage :: stage in Run(s, bootMs, Boot(s, nameLe), ops).reached
              <==> exists op | op in Effective(ops) :: Touches(op, stage)
  {
    hide Apply, Touches, Baseline;
    if ops != [] {
      var n := |ops| - 1;
      var before, op := ops[..n], ops[n];
      StagesReached(s, bootMs, nameLe, before);
      ClosedIff(s, bootMs, nameLe, before);
      var c := Run(s, bootMs, Boot(s, nameLe), before);
      ApplyGrows(s, bootMs, c, op);
      if !c.closed {
        ApplyReaches(s, bootMs, c, op);
        CloseTouchesNothing();
      }
    }
  }

  lemma CloseTouchesNothing()
    ensures forall stage :: !Touches(Close, stage)
  {
  }

  /** One marker a stage, in the order the stages were reached, none twice. */
  ghost predicate Marked(c: ClientState) {
    && |c.markers| == |c.reached|
    && (forall i | 0 <= i < |c.reached| :: c.markers[i].stage == c.reached[i])
    && (forall i, j | 0 <= i < j < |c.reached| :: c.reached[i] != c.reached[j])
  }

  lemma {:induction false} TouchAllMarked(c: ClientState, stages: seq<StageId>, reason: string, tickMs: int)
    requires Marked(c)
    ensures Marked(TouchAll(c, stages, reason, tickMs))
  {
    if stages != [] { TouchAllMarked(c, stages[..|stages| - 1], reason, tickMs); }
  }

  lemma {:induction false} StagesMarked(s: Scenario, bootMs: int, nameLe: (string, string) -> bool, ops: seq<Op>)
    ensures Marked(Run(s, bootMs, Boot(s, nameLe), ops))
  {
    hide StagesOf, Recorded, Baseline, TouchAll;
    if ops != [] {
      var n := |ops| - 1;
      StagesMarked(s, bootMs, nameLe, ops[..n]);
      var c, op := Run(s, bootMs, Boot(s, nameLe), ops[..n]), ops[n];
      if op.CallAdapter? && !c.closed {
        RecordedOpen(s, c, op.adapter, op.methodName, op.now - bootMs);
        var mid := Recorded(s, c, op.adapter, op.methodName, op.now - bootMs);
        TouchAllMarked(mid, StagesOf(op.adapter), BY_ADAPTER + op.adapter, op.now - bootMs);
      }
    }
  }

  // ----- what one call does, written out

  /** An adapter call logs one event, numbered next after the last one, and records
      its number. */
  lemma CallLogs(s: Scenario, bootMs: int, c: ClientState, adapter: string, methodName: string, now: int)
    requires !c.closed
    ensures var d := Apply(s, bootMs, c, CallAdapter(adapter, methodName, now));
            var number := if c.events == [] then 1 else c.events[|c.events| - 1].seqNo + 1;
            && |d.events| == |c.events| + 1 && c.events <= d.events
            && |d.calls| == |c.calls| + 1 && c.calls <= d.calls
            && (var e := d.events[|c.events|];
                && e.seqNo == number && e.channel == "adapter" && e.ts == s.capturedAt
                && e.kind == (if Present(s, adapter) then "adapter.invoked" else "adapter.degraded"))
            && d.calls[|c.calls|] == CallRecord(adapter, methodName, now - bootMs, number, Present(s, adapter))
  {
    hide CallPayload, StagesOf, Present, TouchAll;
    var mid := Recorded(s, c, adapter, methodName, now - bootMs);
    TouchKeeps(mid, StagesOf(adapter), BY_ADAPTER + adapter, now - bootMs);
  }

  lemma CallCarries(s: Scenario, adapter: string, methodName: string)
    ensures CallPayload(s, adapter, methodName).Obj?
    ensures var f, capture := CallPayload(s, adapter, methodName).fields, Capture(s, adapter);
            && Get(f, "tool") == Str(adapter) && Get(f, "method") == Str(methodName)
            && (Present(s, adapter) ==> Get(f, "reason") == Undefined)
            && (!Present(s, adapter) && capture.Some? && capture.value.skipReason.Some? ==>
                  Get(f, "reason") == Str(capture.value.skipReason.value))
            && (!Present(s, adapter) && (capture.None? || capture.value.skipReason.None?) ==>
                  Get(f, "reason") == Str("tool not present"))
  {
    hide Capture;
    var f := CallPayload(s, adapter, methodName).fields;
    assert f[0].key[0] == 't' && f[1].key[0] == 'm' && (|f| == 3 ==> f[2].key[0] == 'r');
    assert "reason"[0] == 'r';
    GetAt(f, 0);
    GetAt(f, 1);
    if |f| == 3 { GetAt(f, 2); } else { assert f[1..][1..] == []; }
  }

  /** An emitted event keeps its number unless that is behind, and everything else. */
  lemma EmitNumbers(s: Scenario, bootMs: int, c: ClientState, e: Event)
    requires !c.closed
    ensures var next := if c.events == [] then 1 else c.events[|c.events| - 1].seqNo + 1;
            var number := if e.seqNo < next then next else e.seqNo;
            Apply(s, bootMs, c, Emit(e))
            == c.(events := c.events + [Event(e.channel, number, e.ts, e.kind, e.payload)])
  {
  }

  ghost predicate OneToN(events: seq<Event>) {
    forall i | 0 <= i < |events| :: events[i].seqNo == i + 1
  }

  /** Without emitted events, the log is numbered 1, 2, 3 and so on. */
  lemma {:induction false} NumberedOn(s: Scenario, bootMs: int, nameLe: (string, string) -> bool, ops: seq<Op>)
    requires forall op | op in ops :: !op.Emit?
    ensures OneToN(Run(s, bootMs, Boot(s, nameLe), ops).events)
  {
    if ops != [] {
      hide Apply, Baseline, OneToN;
      var n := |ops| - 1;
      assert forall op | op in ops[..n] :: op in ops;
      assert ops[n] in ops;
      NumberedOn(s, bootMs, nameLe, ops[..n]);
      NumberedNext(s, bootMs, Run(s, bootMs, Boot(s, nameLe), ops[..n]), ops[n]);
    }
  }

  lemma NumberedNext(s: Scenario, bootMs: int, c: ClientState, op: Op)
    requires !op.Emit? && OneToN(c.events)
    ensures OneToN(Apply(s, bootMs, c, op).events)
  {
    LogNext(s, bootMs, c, op);
    hide *;
    OneMore(c.events, Apply(s, bootMs, c, op).events);
  }

  lemma OneMore(log: seq<Event>, d: seq<Event>)
    requires OneToN(log)
    requires d == log || (log <= d && |d| == |log| + 1 && d[|log|].seqNo == NextSeq(log))
    ensures OneToN(d)
  {
    forall i | 0 <= i < |d|
      ensures d[i].seqNo == i + 1
    {
      if i < |log| { assert d[i] == log[i]; }
    }
  }

  /** A call other than `emit` adds no event or one, with the next number. */
  lemma LogNext(s: Scenario, bootMs: int, c: ClientState, op: Op)
    requires !op.Emit?
    ensures var log, d := c.events, Apply(s, bootMs, c, op).events;
            d == log || (log <= d && |d| == |log| + 1 && d[|log|].seqNo == NextSeq(log))
  {
    if op.CallAdapter? && !c.closed {
      CallLogs(s, bootMs, c, op.adapter, op.methodName, op.now);
      hide Apply;
    }
  }

  /** The marker a call would set. */
  predicate Sets(op: Op, m: Marker, bootMs: int) {
    match op
    case CallAdapter(adapter, _, now) =>
      adapter in StageAdapters(m.stage) && m.reason == "adapter:" + adapter && m.tickMs == now - bootMs
    case MarkStageReached(stage, reason, now) =>
      stage == m.stage && m.reason == (if reason.Some? then reason.value else "explicit") && m.tickMs == now - bootMs
    case _ => false
  }

  lemma {:induction false} TouchAllSets(c: ClientState, stages: seq<StageId>, adapter: string, tickMs: int)
    ensures forall m | m in TouchAll(c, stages, "adapter:" + adapter, tickMs).markers ::
              m in c.markers || (m.stage in stages && m.reason == "adapter:" + adapter && m.tickMs == tickMs)
  {
    if stages != [] {
      var n := |stages| - 1;
      TouchAllSets(c, stages[..n], adapter, tickMs);
      assert stages == stages[..n] + [stages[n]];
    }
  }

  lemma ApplySets(s: Scenario, bootMs: int, c: ClientState, op: Op)
    requires !c.closed
    ensures forall m | m in Apply(s, bootMs, c, op).markers :: m in c.markers || Sets(op, m, bootMs)
  {
    hide StageAdapters, StagesOf, TouchAll, Recorded;
    if op.CallAdapter? {
      RecordedOpen(s, c, op.adapter, op.methodName, op.now - bootMs);
      var mid := Recorded(s, c, op.adapter, op.methodName, op.now - bootMs);
      TouchAllSets(mid, StagesOf(op.adapter), op.adapter, op.now - bootMs);
      StagesOfMeans(op.adapter);
      assert BY_ADAPTER == "adapter:";
    }
  }

  /** Every marker tells the call that set it. */
  lemma {:induction false} MarkersTell(s: Scenario, bootMs: int, nameLe: (string, string) -> bool, ops: seq<Op>)
    ensures forall m | m in Run(s, bootMs, Boot(s, nameLe), ops).markers ::
              exists op | op in Effective(ops) :: Sets(op, m, bootMs)
  {
    hide Apply, Sets, Baseline;
    if ops != [] {
      var n := |ops| - 1;
      var before, op := ops[..n], ops[n];
      MarkersTell(s, bootMs, nameLe, before);
      ClosedIff(s, bootMs, nameLe, before);
      var c := Run(s, bootMs, Boot(s, nameLe), before);
      ApplyGrows(s, bootMs, c, op);
      if !c.closed {
        ApplySets(s, bootMs, c, op);
        CloseSetsNothing(bootMs);
      }
    }
  }

  lemma CloseSetsNothing(bootMs: int)
    ensures forall m :: !Sets(Close, m, bootMs)
  {
  }
}
