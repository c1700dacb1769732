# Verified model of the replay, conformance and evidence code

A Dafny model of the parts of the repository where an error would be hard to
see by reading: the resumable event replay and the mock daemon client on top of
it, the conformance harness, two hand-written lexers of the source scanners, the
bead graph's layering and layout, the `go test -json` aggregator, percentiles and
SLO assertions, the in-memory replay client, and the normalisation of
capabilities.json. `dafny verify dfyconfig.toml` checks all of it.

## How it is organised

| module | models |
|---|---|
| EventStream, Pacing | `startReplay`, `deriveCursors`; delivery times on an exact clock |
| MockDaemonClient, SharedCursors | `subscribe`, `swapScenario`, the cursors all sessions share, and what a second live session does to them |
| Json, Records, Numbers, NumberFacts, JsonText, CanonicalJson | JavaScript values, `JSON.stringify`, `JSON.parse`, `canonicalJson` |
| Schema, JsonSchema | `validateSchema`, and JSON Schema's own reading of the same schemas |
| BrMapper, BrSchema, Ledger | `mapBrToBeadListResponse`, br.schema.json, the expected-failure ledger |
| SourceText, Lexers, LexerRules, LexerFacts | `lineAndColumn`, `stripCommentsPreserveStrings`, `cleanLines` |
| BeadsDag, BeadsLayout | `layerOf` with its memo, `byLayer`, `positions` |
| GoTest, GoTestLines, GoTestFacts, GoTestOrder | `parseGoTestNdjson` |
| Percentile, Slo, SloBounds | `percentile`, `expectSlo` |
| Stages, BaselineEvents, ReplayClient | `stageForAdapter`, `synthesizeBaselineEvents`, `createReplayClient` |
| Capabilities | `normalizeCapabilityRegistry` and what it calls |
| Sorting, Results | stable sorting and selection, shared by the others |

Code that changes state step by step is a class or a method with a loop, proved
equal to a function on values; what the code is for is proved about those
functions. The asynchronous delivery loop is cut at its two awaits: between
them nothing else can run, so a session is a state machine whose signals are the
end of a sleep, the settling of a callback, and a cancellation. The properties
quantify over every sequence of signals.

## Where the code differs from what one might expect

The model follows the code. These are stated as theorems, with the exact
condition where there is one.

- Delivery is at most once: the cursor moves before the callback. Stopping and
  resuming gives the uninterrupted replay exactly when sequence numbers are
  unique on each channel and agree with the timestamps (`EventStream.ResumeIff`,
  `EventStream.ResumeCanLose`).
- A session running across `swapScenario` writes the old scenario's cursors back
  (`MockDaemonClient.SwapWhileLive`), and two sessions at once can repeat events
  (`MockDaemonClient.OverlapRepeats`). `SharedCursors.SwapIsCleanIff` and
  `SharedCursors.OverlapIff` say exactly when.
- Inside arrays, canonical JSON prints undefined as null, so equal texts do not
  mean equal values there (`CanonicalJson.PrintsAlikeIff`,
  `CanonicalJson.UndefinedPrintsAsNull`).
- The validator is not a JSON Schema validator: `anyOf` replaces its sibling
  keywords, `maximum` is ignored, so is `additionalProperties` without properties,
  and constants are compared with their key order. `JsonSchema` has an input for
  each. It is never stricter than JSON Schema when constants hold no object
  (`JsonSchema.NeverStricter`), and on plain schemas the two differ in the maxima
  alone (`JsonSchema.StandardIff`), so a priority of 9 passes as a bead's
  (`BrSchema.ResponseMeetsBrSchemaIff`, `BrSchema.PriorityNine`).
- The response mapper lets through issues with a status or type the schema does
  not list; the validator then rejects the response
  (`BrMapper.ResponseFitsBrSchemaIff`, `BrSchema.UnknownStatus`).
- A ledger listing the drift id of one of its own ids can have no unexpected
  finding although that id was not observed (`Ledger.DriftIdHides`,
  `Ledger.ExpectationsExactIff`). It fools only that test: with any
  ledger, `assertToolConformance` passes exactly when the observed ids are the
  ledger (`Ledger.ConformsIff`).
- A backslash before a newline inside a string makes `cleanLines` lose a line,
  and its raw lines are the source's only without that and without comments
  (`LexerFacts.LexersAgreeIff`, `LexerFacts.RawIff`,
  `LexerFacts.EscapedNewlineDiffers`): of a comment they lose the star that opens
  it, the slash that ends it, or all slashes but the first
  (`LexerRules.RawBlockComment`, `LexerRules.RawLineComment`).
- The comment above the Go parser promises leaves only; a subtest that has
  subtests is emitted beside them (`GoTestFacts.LeavesIff`,
  `GoTestOrder.NestedEmitted`). A package with a colon can make two tests share a
  case (`GoTestFacts.SharedKey`, `GoTestFacts.TestsInterleaveIff`).
- Cases are sorted by name alone, so tests of the same name in two packages come
  in the order in which they first appeared (`GoTestOrder.ListFixedIff`,
  `GoTestOrder.SameNameTwice`).
- The SLO sample gate counts samples that the percentile then ignores
  (`Slo.GateIff`).
- `callAdapter` is documented to answer null for an absent tool; it answers the
  capture the snapshot has for it (`ReplayClient.AbsentAnswered`,
  `ReplayClient.AnswersDocumentedIff`).

## Model

| member | source | states |
|---|---|---|
| `EventStream.DeriveCursors` | packages/fixtures/replay/event-stream.ts:146-152 | each cursor bounds the sequence numbers of its channel and, unless 0, is the number of one of its events |
| `EventStream.CursorMeaning` | packages/fixtures/replay/event-stream.ts:112 | a cursor is the largest number seen on its channel, the starting cursor included |
| `EventStream.AdvancedAllIsJoin` | packages/fixtures/replay/event-stream.ts:112-152 | advancing cursors over a list of events is the pointwise maximum with what `deriveCursors` gives for the list |
| `EventStream.ReplaySession.constructor` | packages/fixtures/replay/event-stream.ts:60-103 | the new object is in the state the step machine starts in, having reacted up to its first await |
| `EventStream.ReplaySession.RunLoop` | packages/fixtures/replay/event-stream.ts:91-107 | the object reaches the state of the step machine at the next await or return |
| `EventStream.ReplaySession.Hand` | packages/fixtures/replay/event-stream.ts:107-114 | second cancellation check, then cursor, then callback, as in the step machine |
| `EventStream.ReplaySession.SleepEnds` | packages/fixtures/replay/event-stream.ts:103-114 | the object follows the step machine when a sleep ends |
| `EventStream.ReplaySession.CallbackSettles` | packages/fixtures/replay/event-stream.ts:113-128 | the object follows the step machine when a callback settles, well or not |
| `EventStream.ReplaySession.CancelSession` | packages/fixtures/replay/event-stream.ts:135-137 | cancelling sets the flag and nothing else |
| `EventStream.SessionRun` | packages/fixtures/replay/event-stream.ts:77-129 | over every sequence of sleeps, settlements and cancellations: a prefix of the plan is handed out in order, then at most one of onEnd and onCancel, onEnd only after the whole plan, nothing afterwards; the cursors are the starting ones joined with those of what was handed out |
| `EventStream.NothingAfterCancel` | packages/fixtures/replay/event-stream.ts:94-111 | no callback begins after `cancel()`, from any consistent state and whatever follows |
| `EventStream.CancelledOutcome` | packages/fixtures/replay/event-stream.ts:94-128 | a cancelled session that completes reports onCancel, unless the last callback was running and settles well: then onEnd |
| `EventStream.FailureEnds` | packages/fixtures/replay/event-stream.ts:113-125 | a callback that fails ends the session at once, cancelled or not and whatever comes later: onCancel is the one further call, and the cursors stay |
| `EventStream.SmoothSession` | packages/fixtures/replay/event-stream.ts:77-129 | a session that nobody cancels and whose callbacks settle well never reports onCancel |
| `EventStream.GoesOnOrSleeps` | packages/fixtures/replay/event-stream.ts:95-115 | after a callback the session hands out the next event at once when that is due or the speed is instant, and sleeps otherwise |
| `EventStream.DueWhen` | packages/fixtures/replay/event-stream.ts:101-104 | the offset of an event from the first one, divided by 1, 10 or 100 and rounded down, is when it is due |
| `EventStream.DoneUnchanged` | packages/fixtures/replay/event-stream.ts:84-129 | once done, a session makes no further call and moves no cursor |
| `EventStream.Progress` | packages/fixtures/replay/event-stream.ts:84-129 | every signal a session awaits brings it strictly closer to completion, and no signal takes it further away |
| `EventStream.AwaitsAtMost` | packages/fixtures/replay/event-stream.ts:84-129 | no run awaits more than twice as many signals as its plan has events |
| `EventStream.Completes` | packages/fixtures/replay/event-stream.ts:84-129 | a run that has heard as many signals, counting those that came when it was done, has made exactly one of the calls onEnd and onCancel, once and last |
| `EventStream.HearsEnough` | packages/fixtures/replay/event-stream.ts:84-129 | every run can be continued until it has heard any given number of signals |
| `EventStream.CanComplete` | packages/fixtures/replay/event-stream.ts:84-129 | every session can be brought to its end, and one that is not cancelled and still going to onEnd |
| `EventStream.PlanOrdered` | packages/fixtures/replay/event-stream.ts:67-76 | the plan is a permutation of the events beyond the cursors, ordered by time and then number, ties in stored order |
| `EventStream.PlanMembers` | packages/fixtures/replay/event-stream.ts:67-76 | the plan holds exactly the events beyond their channel's cursor |
| `EventStream.PlanByTime` | packages/fixtures/replay/event-stream.ts:76 | of two events of the plan the earlier one has the smaller timestamp, or the same and no greater number |
| `EventStream.PlanFromLater` | packages/fixtures/replay/event-stream.ts:67-76 | starting from later cursors gives the same plan, in the same order, less what those cursors cover |
| `EventStream.NothingAfterAll` | packages/fixtures/replay/event-stream.ts:143-152 | replaying from `deriveCursors(events)` delivers nothing |
| `EventStream.AgreeIff` | packages/fixtures/replay/event-stream.ts:67-76 | numbers strictly increase on each channel of the sorted plan exactly when, in the stored events, they are unique and agree with the timestamps |
| `EventStream.ResumeIff` | packages/fixtures/replay/event-stream.ts:67-129 | stopping after any number of events and resuming from the cursors yields the uninterrupted replay, exactly when numbers are unique on each channel and agree with the timestamps |
| `EventStream.ResumeCanLose` | packages/fixtures/replay/event-stream.ts:67-129 | counterexample: two events whose numbers contradict their times; stopping after the first loses the second |
| `MockDaemonClient.MockDaemonClient.constructor` | packages/fixtures/replay/mock-daemon-client.ts:126-135 | a client with its scenario, no cursors, no sessions and nothing received |
| `MockDaemonClient.MockDaemonClient.OnEvent` | packages/fixtures/replay/mock-daemon-client.ts:206-211 | the wrapped callback advances the shared cursors and passes the event on |
| `MockDaemonClient.MockDaemonClient.Subscribe` | packages/fixtures/replay/mock-daemon-client.ts:200-219 | the object, with all its sessions, goes to the next value: a session over the channel's events from the given or the shared cursors, whose first event may be handed out and advance the shared cursors at once |
| `SharedCursors.SubscriptionPlan` | packages/fixtures/replay/mock-daemon-client.ts:200-219 | a new session will hand out exactly the scenario's events beyond the cursors it starts from, and with a nonempty channel only those of the channel |
| `SharedCursors.FilteredCalls` | packages/fixtures/replay/mock-daemon-client.ts:200-219 | over every run of signals to any session, a session with a channel is called with events of that channel only |
| `SharedCursors.FilteredLog` | packages/fixtures/replay/mock-daemon-client.ts:200-219 | what is received while only such a session is signalled, its first event included, is of its channel |
| `MockDaemonClient.MockDaemonClient.Dispatch` | packages/fixtures/replay/mock-daemon-client.ts:206-218 | a signal to one session takes the object to the next value: that session reacts, and log and shared cursors change by exactly what it hands out |
| `MockDaemonClient.MockDaemonClient.SwapScenario` | packages/fixtures/replay/mock-daemon-client.ts:221-233 | the object goes to the next value: new events, no cursors, running sessions untouched |
| `MockDaemonClient.ExactlyOnce` | packages/fixtures/replay/mock-daemon-client.ts:200-219 | over any run of subscribing, signalling, cancelling and resubscribing with at most one live session, with agreeing numbers: on every channel, received events followed by what the cursors leave are the uninterrupted replay; without channel filters the same in the total order, and once the last session has handed out its plan, complete on the channels it covers, and altogether without filters |
| `MockDaemonClient.EndedHandedAll` | packages/fixtures/replay/event-stream.ts:126-127 | a session that has reported onEnd has handed out its whole plan |
| `MockDaemonClient.FullReplayIff` | packages/fixtures/replay/mock-daemon-client.ts:221-233 | a fresh subscription replays a scenario in full exactly when no cursor covers one of its events |
| `MockDaemonClient.SwapWhenQuiet` | packages/fixtures/replay/mock-daemon-client.ts:221-233 | after a swap with no live session, every following one-at-a-time run delivers the new scenario exactly once: channel by channel, in the total order without filters, and completely, on the channels the last session covers, once it has handed out its plan |
| `MockDaemonClient.SwapWhileLive` | packages/fixtures/replay/mock-daemon-client.ts:204-233 | counterexample: a session still running at the swap writes an old cursor back, and the new scenario's event is never delivered |
| `SharedCursors.SwapIsCleanIff` | packages/fixtures/replay/mock-daemon-client.ts:204-233 | whatever live sessions still do after a swap, the whole new scenario is left to the next subscription, exactly when each of its events is beyond every event of its channel that a live session still has to hand out |
| `MockDaemonClient.OverlapRepeats` | packages/fixtures/replay/mock-daemon-client.ts:200-219 | counterexample: two live sessions deliver the same event twice |
| `SharedCursors.OverlapIff` | packages/fixtures/replay/mock-daemon-client.ts:200-219 | subscribing while one session is live lets some run deliver an event twice exactly when that session still has to hand out an event of the new plan, for any filter and cursors with agreeing numbers |
| `SharedCursors.Drive` | packages/fixtures/replay/mock-daemon-client.ts:200-219 | a session that is not cancelled can be driven to its end, delivering exactly the rest of its plan and leaving the others alone |
| `Pacing.DeliverAll` | packages/fixtures/replay/event-stream.ts:91-114 | with an exact sleeper, event n is handed out at the maximum over j <= n of target j plus the callback times from j up to n |
| `Pacing.NeverEarlyNorDrifting` | packages/fixtures/replay/event-stream.ts:98-104 | no event is early, and none is later than its target by more than all the callback time before it |
| `JsonText.ReadPrinted` | packages/fixtures/conformance/harness.ts:952-958 | a recursive-descent reader of RFC 8259 reads back any printed value, in any context |
| `JsonText.ParsePrinted` | packages/fixtures/conformance/harness.ts:952-958 | parsing printed text gives the value less its undefined parts |
| `JsonText.PrintMeans` | packages/fixtures/conformance/harness.ts:218-220 | the texts of null, booleans, numbers and strings |
| `JsonText.PrintArrayMeans` | packages/fixtures/conformance/harness.ts:218-220 | the text of an array is its elements' texts between brackets, with commas between |
| `JsonText.PrintObjectMeans` | packages/fixtures/conformance/harness.ts:218-220 | the text of an object is its members' quoted keys and texts between braces, with commas between, undefined ones left out |
| `JsonText.EscapeMeans` | packages/fixtures/conformance/harness.ts:218-220 | quotes, backslashes and control characters are escaped, everything else stands for itself |
| `CanonicalJson.NormalIff` | packages/fixtures/conformance/harness.ts:207-216 | two values have the same canonical form exactly when they are the same up to key order and undefined parts |
| `CanonicalJson.StrLeMeans` | packages/fixtures/conformance/harness.ts:211 | keys are ordered by the first character in which they differ, a beginning before what it begins |
| `CanonicalJson.KeysAscend` | packages/fixtures/conformance/harness.ts:210-215 | the keys of a canonical object ascend strictly |
| `CanonicalJson.PrintsAlikeIff` | packages/fixtures/conformance/harness.ts:207-220 | canonical texts are equal exactly when the values differ only in key order, undefined properties, and undefined for null inside arrays |
| `CanonicalJson.UndefinedPrintsAsNull` | packages/fixtures/conformance/harness.ts:207-220 | counterexample: an array holding undefined and one holding null print alike |
| `CanonicalJson.RoundTrip` | packages/fixtures/conformance/harness.ts:952-964 | parsing the canonical text gives the canonical value, which prints the same text: the round-trip finding cannot arise |
| `Schema.StringifyIff` | packages/fixtures/conformance/harness.ts:553-563 | `JSON.stringify` comparison, as const and enum use it, is equality up to undefined parts |
| `Schema.ValidateIff` | packages/fixtures/conformance/harness.ts:547-607 | for every value and every sound schema, no errors are reported exactly when the value satisfies the schema, `anyOf` standing alone |
| `JsonSchema.TypeNames` | packages/fixtures/conformance/harness.ts:526-545 | a schema that is a type name accepts exactly the values of that type, and "integer" exactly the numbers whose value is whole |
| `JsonSchema.UnknownType` | packages/fixtures/conformance/harness.ts:542-543 | a type name the validator does not know accepts everything |
| `JsonSchema.FractionIsNoInteger` | packages/fixtures/conformance/harness.ts:532-537 | 1.5 is accepted as a number and rejected as an integer |
| `NumberFacts.PlainValue` | packages/fixtures/conformance/harness.ts:532-533 | the value of a numeral without an exponent: its whole part plus its fraction |
| `NumberFacts.FractionMeans` | packages/fixtures/conformance/harness.ts:532-533 | digits after the point are worth their value over ten to their number |
| `NumberFacts.ExponentValue` | packages/fixtures/conformance/harness.ts:532-533 | an exponent multiplies by that power of ten, a negative one divides |
| `NumberFacts.NegativeValue` | packages/fixtures/conformance/harness.ts:532-533 | a minus sign negates |
| `JsonSchema.NeverStricter` | packages/fixtures/conformance/harness.ts:547-607 | what JSON Schema accepts, every keyword counting, the validator accepts, for every schema whose constants hold no object |
| `JsonSchema.StandardIff` | packages/fixtures/conformance/harness.ts:547-607 | for schemas whose anyOf stands alone, with plain constants, nonempty patterns and properties wherever closed, JSON Schema asks exactly what the validator asks and the maxima |
| `JsonSchema.ReadingsAgree` | packages/fixtures/conformance/harness.ts:547-607 | without maxima the validator finds nothing on such a schema exactly when JSON Schema accepts the value |
| `JsonSchema.SiblingsDropped` | packages/fixtures/conformance/harness.ts:548-552 | counterexample: `type` beside `anyOf` is not looked at |
| `JsonSchema.MaximumIgnored` | packages/fixtures/conformance/harness.ts:511-524 | counterexample: `maximum` is not looked at |
| `JsonSchema.ClosedIgnored` | packages/fixtures/conformance/harness.ts:595-605 | counterexample: `additionalProperties: false` without properties is not looked at |
| `JsonSchema.KeyOrderCounts` | packages/fixtures/conformance/harness.ts:553-557 | counterexample: an object constant in another key order is rejected |
| `BrMapper.MapBrToBeadListResponse` | packages/fixtures/conformance/harness.ts:304-336 | the loop builds exactly the response of the declarative mapping: acceptable issues in order, page with hasMore, total and dropped |
| `BrMapper.NothingVanishes` | packages/fixtures/conformance/harness.ts:304-336 | items are the acceptable issues in their order, and items plus dropped is the number of raw issues; `dropped` is absent when nothing is |
| `BrSchema.BeadCarries` | packages/fixtures/conformance/harness.ts:344-351 | each required property of a bead is the raw issue's one of the same meaning, `issueType` being `issue_type` |
| `BrSchema.BeadCarriesTexts` | packages/fixtures/conformance/harness.ts:352-356 | each optional property is the raw one in snake case if that is a string, and absent otherwise |
| `BrSchema.PageCarries` | packages/fixtures/conformance/harness.ts:320-325 | `hasMore` is the raw `has_more` if boolean and else false, `total` the raw one if it is a whole number from 0 on |
| `BrMapper.ResponseHasShape` | packages/fixtures/conformance/harness.ts:278-336 | every response, on any raw input, validates under a closed schema of `BeadListResponseShape` |
| `BrMapper.ResponseIff` | packages/fixtures/conformance/harness.ts:304-336 | the response satisfies a list schema exactly when each bead satisfies the item schema |
| `BrMapper.ResponseFitsBrSchemaIff` | packages/fixtures/conformance/harness.ts:338-358 | the response validates under the payload part of schemas/br.schema.json exactly when each accepted issue has a known status and type and a non-negative priority |
| `BrSchema.ResponseMeetsBrSchemaIff` | packages/fixtures/conformance/schemas/br.schema.json:15-63 | as JSON Schema reads the payload part of the file, `maximum` included, the response meets it exactly when the validator finds nothing and every accepted priority is at most 4 |
| `BrSchema.PriorityNine` | packages/fixtures/conformance/schemas/br.schema.json:38 | counterexample: an accepted priority of 9 passes the validator and breaks the file |
| `BrSchema.UnknownStatus` | packages/fixtures/conformance/harness.ts:338-358 | counterexample: an issue with an unlisted status is accepted and its response rejected |
| `Ledger.CloseLedger` | packages/fixtures/conformance/harness.ts:971-982 | findings only grow, and each ledger id is observed or reported as resolved drift |
| `Ledger.ResolvedReported` | packages/fixtures/conformance/harness.ts:971-982 | a listed id that was not observed is reported under an id of its own, itself expected only if listed |
| `Ledger.NoneUnexpectedIff` | packages/fixtures/conformance/harness.ts:609-624 | with no drift id of a listed id in the ledger: no unexpected finding exactly when the observed ids are the ledger's ids |
| `Ledger.ExpectationsExactIff` | packages/fixtures/conformance/harness.ts:609-624 | no unexpected finding means, for everything gathered, that observed and listed ids are the same, exactly when the ledger lists no drift id of one of its ids |
| `Ledger.DriftIdHides` | packages/fixtures/conformance/harness.ts:971-982 | counterexample: a ledger that lists a drift id has no unexpected finding although its id was not observed |
| `Ledger.ConformsIff` | packages/fixtures/conformance/harness.ts:1017-1029 | for every ledger, drift ids included, `assertToolConformance` passes exactly when the observed ids equal the ledger as multisets |
| `SourceText.LineAndColumn` | scripts/desktop-helper-boundary/check-desktop-helper-boundary.ts:191-201 | the loop computes the 1-based line and column of an offset |
| `SourceText.PositionGrows` | scripts/desktop-helper-boundary/check-desktop-helper-boundary.ts:191-201 | positions increase strictly with offsets, line first |
| `SourceText.PositionInjective` | scripts/desktop-helper-boundary/check-desktop-helper-boundary.ts:191-201 | a line and column name at most one offset |
| `SourceText.SamePositions` | scripts/desktop-helper-boundary/check-desktop-helper-boundary.ts:191-201 | texts with the same newline offsets agree on every position |
| `SourceText.PositionMeans` | scripts/desktop-helper-boundary/check-desktop-helper-boundary.ts:191-207 | the character at an offset is at its column of its line, and `lineSnippet` cuts out that line |
| `Lexers.StripCommentsPreserveStrings` | scripts/desktop-helper-boundary/check-desktop-helper-boundary.ts:209-264 | the index loop computes the mode-by-mode stripping function |
| `Lexers.CleanLines` | scripts/codex-shape-scrub/check-codex-shape-scrub.ts:197-279 | the index loop computes the token-by-token scrubbing function, raw and cleaned |
| `LexerRules.StripString` | scripts/desktop-helper-boundary/check-desktop-helper-boundary.ts:228-260 | for each of the three quotes, a string, ended or not and with escapes, is kept as it is |
| `LexerRules.StripLineComment` | scripts/desktop-helper-boundary/check-desktop-helper-boundary.ts:241-249 | a line comment becomes spaces up to its newline or the end |
| `LexerRules.StripBlockComment` | scripts/desktop-helper-boundary/check-desktop-helper-boundary.ts:217-255 | a block comment becomes spaces up to its first end mark, ended or not; newlines stay |
| `LexerRules.StripOrdinary` | scripts/desktop-helper-boundary/check-desktop-helper-boundary.ts:261 | any other character is kept |
| `LexerFacts.StripKeepsOffsets` | scripts/desktop-helper-boundary/check-desktop-helper-boundary.ts:209-264 | stripping keeps the length and changes characters only to spaces, never a newline |
| `LexerFacts.StrippedPositions` | scripts/desktop-helper-boundary/check-desktop-helper-boundary.ts:272-306 | positions in the stripped text are those of the source and name one offset |
| `LexerFacts.ReportedUse` | scripts/desktop-helper-boundary/check-desktop-helper-boundary.ts:272-306 | for a match in the stripped text, the reported line exists in the source, is the snippet, and has the matched character at the reported column |
| `LexerFacts.StripIdempotent` | scripts/desktop-helper-boundary/check-desktop-helper-boundary.ts:209-264 | stripping twice is stripping once, unterminated comments and strings included |
| `LexerFacts.CleanIsBlanked` | scripts/codex-shape-scrub/check-codex-shape-scrub.ts:197-279 | without an escaped newline, cleaning is stripping with strings blanked |
| `LexerRules.CleanString` | scripts/codex-shape-scrub/check-codex-shape-scrub.ts:229-271 | for each of the three quotes, a string, ended or not and with escapes, becomes spaces; unescaped newlines stay |
| `LexerRules.CleanLineComment` | scripts/codex-shape-scrub/check-codex-shape-scrub.ts:246-260 | a line comment becomes spaces up to its newline or the end |
| `LexerRules.CleanBlockComment` | scripts/codex-shape-scrub/check-codex-shape-scrub.ts:219-266 | a block comment becomes spaces up to its first end mark, ended or not; newlines stay |
| `LexerRules.CleanOrdinary` | scripts/codex-shape-scrub/check-codex-shape-scrub.ts:273 | any other character is kept |
| `LexerRules.RawString` | scripts/codex-shape-scrub/check-codex-shape-scrub.ts:229-271 | a raw line keeps strings as they are |
| `LexerRules.RawLineComment` | scripts/codex-shape-scrub/check-codex-shape-scrub.ts:246-260 | a raw line loses every slash of a line comment but the first |
| `LexerRules.RawBlockComment` | scripts/codex-shape-scrub/check-codex-shape-scrub.ts:219-266 | a raw line loses the star that opens and the slash that ends a block comment |
| `LexerRules.RawOrdinary` | scripts/codex-shape-scrub/check-codex-shape-scrub.ts:210 | any other character stays on the raw line |
| `LexerFacts.ScrubCleaned` | scripts/codex-shape-scrub/check-codex-shape-scrub.ts:200-279 | the cleaned lines are the cleaned text cut at its newlines |
| `LexerFacts.CleanCounts` | scripts/codex-shape-scrub/check-codex-shape-scrub.ts:225-245 | cleaning keeps the length and loses exactly the newlines that a string escapes |
| `LexerFacts.LexersAgreeIff` | scripts/codex-shape-scrub/check-codex-shape-scrub.ts:197-279 | the lexers agree, line for line and column for column, exactly when no string has a backslash before a newline |
| `LexerFacts.RawIff` | scripts/codex-shape-scrub/check-codex-shape-scrub.ts:197-279 | for every source, the raw lines are the source's lines exactly when it has no comment and no newline escaped in a string |
| `LexerFacts.EscapedNewlineDiffers` | scripts/codex-shape-scrub/check-codex-shape-scrub.ts:225-240 | counterexample: a string with a backslash before a newline breaks both agreements |
| `LexerFacts.ReportedIdentifier` | scripts/codex-shape-scrub/check-codex-shape-scrub.ts:297-318 | without an escaped newline, every source character stands in the cleaned line and column computed for it, or is blanked |
| `LexerFacts.ReportedBack` | scripts/codex-shape-scrub/check-codex-shape-scrub.ts:304-318 | without an escaped newline, every character of a cleaned line that is not blank is the source's character at that line and column, and at no other offset |
| `LexerFacts.CleanPositionsIff` | scripts/codex-shape-scrub/check-codex-shape-scrub.ts:225-245 | lines and columns of the cleaned text are the source's at every offset exactly when no string has a backslash before a newline |
| `SourceText.OffsetOf` | scripts/desktop-helper-boundary/check-desktop-helper-boundary.ts:191-201 | every character of every line is the character at an offset with that line and column |
| `BeadsDag.LongestMeans` | design/mockups/v1/beads.jsx:199-211 | the specification of a layer: a dependency chain of that length exists and none is longer |
| `BeadsDag.DepShorter` | design/mockups/v1/beads.jsx:202-208 | on an acyclic graph every dependency has a strictly shorter longest chain |
| `BeadsDag.SomeDepLongest` | design/mockups/v1/beads.jsx:206 | some dependency's longest chain is shorter by exactly one |
| `BeadsDag.Layering.LayerOf` | design/mockups/v1/beads.jsx:202-208 | the memoised recursion terminates, returns the longest chain's length, forgets nothing, and leaves every memo entry right |
| `BeadsDag.Layering.Fill` | design/mockups/v1/beads.jsx:209 | afterwards every bead is in the memo and every entry is right |
| `BeadsDag.Layers` | design/mockups/v1/beads.jsx:200-211 | every bead has a layer, and every entry is the longest dependency chain |
| `BeadsDag.LayersDescend` | design/mockups/v1/beads.jsx:200-211 | every bead is on a strictly later layer than each of its dependencies |
| `BeadsLayout.GroupByLayer` | design/mockups/v1/beads.jsx:214-221 | each group is the beads of one layer in source order, and no group is empty |
| `BeadsLayout.LayerKeys` | design/mockups/v1/beads.jsx:223 | exactly the layers in use, in increasing order |
| `BeadsLayout.LayerAdded` | design/mockups/v1/beads.jsx:229-247 | placing a row completes its layer and disturbs no earlier one, although rows are ordered by positions computed so far |
| `BeadsLayout.SlotMeans` | design/mockups/v1/beads.jsx:239-245 | places of a row mirror each other around 0, boxes are 168 wide and 28 apart, rows 104 apart |
| `BeadsLayout.AverageMeans` | design/mockups/v1/beads.jsx:234-235 | a bead's average is the sum of its dependencies' x, unplaced ones as 0, over their number, and 0 without any |
| `BeadsLayout.RowAscends` | design/mockups/v1/beads.jsx:231-238 | beyond the first layer a row ascends in that average |
| `BeadsLayout.Place` | design/mockups/v1/beads.jsx:227-247 | every layer is placed in average-parent-x order, centred and evenly spaced, and nothing else is placed |
| `BeadsLayout.NoOverlap` | design/mockups/v1/beads.jsx:239-246 | any two boxes of a placed bead set are apart |
| `BeadsLayout.Shift` | design/mockups/v1/beads.jsx:249-258 | boxes keep their relative positions and exactly fill the space between the paddings of W and H |
| `BeadsLayout.Layout` | design/mockups/v1/beads.jsx:193-260 | for every acyclic bead set with unique ids: no two boxes meet, each bead is below its dependencies on its layer, boxes fit exactly between the paddings, and rows are the centred rows moved alike |
| `GoTest.ParseGoTestNdjson` | packages/test-evidence/src/go-json-parser.ts:46-131 | the aggregating loop yields the sorted cases that each key's own lines determine, and the build errors |
| `GoTest.ConsumedTest` | packages/test-evidence/src/go-json-parser.ts:73-102 | one test line updates the aggregates, key order and parent set to those of the longer stream |
| `GoTest.MarkParents` | packages/test-evidence/src/go-json-parser.ts:105-108 | exactly the aggregates named as parents are marked |
| `GoTestFacts.StatusMeans` | packages/test-evidence/src/go-json-parser.ts:97-102 | a case has the status of its last terminal line, and is skipped without one |
| `GoTestLines.LastWord` | packages/test-evidence/src/go-json-parser.ts:98-100 | whatever comes before, and whatever lines without an end of the test come after, a pass is passed, a fail failed and a skip skipped |
| `GoTestLines.NoWord` | packages/test-evidence/src/go-json-parser.ts:115-120 | without an end of the test the case is skipped and lasts 0 |
| `GoTestFacts.MillisMeans` | packages/test-evidence/src/go-json-parser.ts:97-102 | its duration is that of the last terminal line with an elapsed time, else 0 |
| `GoTestLines.LastTime` | packages/test-evidence/src/go-json-parser.ts:99-104 | the duration is the last elapsed seconds of an end of the test, times 1000 and rounded, negative ones as 0 |
| `GoTestFacts.MessageMeans` | packages/test-evidence/src/go-json-parser.ts:120-125 | a message exists exactly when the test failed and its last twenty outputs are not all white space; it is their trimmed text, cut at 4000 |
| `GoTestLines.OutputAdded` | packages/test-evidence/src/go-json-parser.ts:95-97 | the outputs of a test are kept one by one, in order, and no other line adds any |
| `GoTestLines.TailMeans` | packages/test-evidence/src/go-json-parser.ts:123 | the tail is the last twenty outputs, or all if there are fewer |
| `GoTestLines.JoinedMeans` | packages/test-evidence/src/go-json-parser.ts:123 | they are joined with nothing in between |
| `GoTestFacts.OneCasePerKey` | packages/test-evidence/src/go-json-parser.ts:110-130 | the cases are, as a multiset and in name order, one for each key with lines that is no parent |
| `GoTestFacts.InterleavingIrrelevant` | packages/test-evidence/src/go-json-parser.ts:46-131 | streams that agree key by key give the same multiset of cases, and the same list when no two names tie |
| `GoTestFacts.KeyInjective` | packages/test-evidence/src/go-json-parser.ts:73 | the key determines package and test when packages have no colon |
| `GoTestFacts.TestsInterleaveIff` | packages/test-evidence/src/go-json-parser.ts:46-131 | keeping the order of each (package, test)'s lines fixes the multiset of cases, for every such rearrangement, exactly when no two tests of the stream share the key of an emitted case |
| `GoTestFacts.ApartSameCases` | packages/test-evidence/src/go-json-parser.ts:46-131 | such rearrangements also give the same list when no two names tie |
| `GoTestOrder.ListFixedIff` | packages/test-evidence/src/go-json-parser.ts:110-130 | such rearrangements give the same list, whatever they are, exactly when no two tests share the key of a case and no two names tie |
| `GoTestOrder.SameNameTwice` | packages/test-evidence/src/go-json-parser.ts:128 | counterexample: two packages with a test of the same name; the first case is the one whose lines came first |
| `GoTestFacts.NoColonsApart` | packages/test-evidence/src/go-json-parser.ts:73 | with no colon in a package no two tests share a key |
| `GoTestFacts.SharedKey` | packages/test-evidence/src/go-json-parser.ts:73-85 | counterexample: two tests sharing a key share one case, whose status depends on the interleaving |
| `GoTestFacts.EmittedIff` | packages/test-evidence/src/go-json-parser.ts:86-94 | a seen test is left out exactly when it has subtests and its own name has no slash, or another test's parent has its key |
| `GoTestFacts.LeavesIff` | packages/test-evidence/src/go-json-parser.ts:86-112 | the cases are exactly the leaves if and only if every test with subtests is a top-level one (or shares another parent's key) and no test without subtests has the key of another test's parent |
| `GoTestOrder.NestedEmitted` | packages/test-evidence/src/go-json-parser.ts:86-112 | counterexample: of A, A/B and A/B/C, A/B is emitted although it has a subtest |
| `GoTestFacts.NoColonsNotAliased` | packages/test-evidence/src/go-json-parser.ts:86-94 | with no colon in a package no test has the key of another test's parent |
| `GoTestFacts.BuildErrorsApart` | packages/test-evidence/src/go-json-parser.ts:53-72 | build errors depend only on the lines that belong to no test |
| `GoTestLines.MalformedReported` | packages/test-evidence/src/go-json-parser.ts:58-63 | a line that does not parse is reported with its first 200 characters |
| `GoTestLines.PackageLines` | packages/test-evidence/src/go-json-parser.ts:64-77 | a failed package, and package output that reports a failure, are reported, and no other package line |
| `GoTestLines.OtherLines` | packages/test-evidence/src/go-json-parser.ts:54-77 | blank lines, lines without a package and lines of tests report nothing |
| `GoTestLines.FailureText` | packages/test-evidence/src/go-json-parser.ts:72 | output that starts with FAIL and white space, or holds "[build failed]", reports a failure |
| `GoTestLines.FailureTextOnly` | packages/test-evidence/src/go-json-parser.ts:72 | and no other output does |
| `Percentile.ComputePercentile` | packages/slo/src/percentile.ts:26-47 | the value or the error of the interpolated percentile of the finite samples |
| `Percentile.DefinedIff` | packages/slo/src/percentile.ts:26-36 | a value exists exactly when p is finite, in (0, 100], and some sample is finite |
| `Percentile.OrderStatistic` | packages/slo/src/percentile.ts:38 | an entry of the sorted samples compared with x is a statement about how many samples are at most, or at least, x |
| `Percentile.MonotoneInP` | packages/slo/src/percentile.ts:38-46 | percentiles increase with p, across ranks |
| `Percentile.OrderIrrelevant` | packages/slo/src/percentile.ts:30-38 | permuting the samples changes nothing, errors included |
| `Percentile.MonotoneInSamples` | packages/slo/src/percentile.ts:30-46 | raising samples pointwise never lowers a percentile |
| `Percentile.Bounded` | packages/slo/src/percentile.ts:38-46 | the value lies between two samples, and at 100 it is the greatest sample |
| `Percentile.LinearOnSpaced` | packages/slo/src/percentile.ts:38-46 | for evenly spaced samples in any order, the value is first + step * (p / 100 * (n - 1)) |
| `Percentile.ValueMeans` | packages/slo/src/percentile.ts:38-46 | with `s` the finite samples in order and k <= p / 100 * (n - 1) < k + 1, the value is s[k] plus the excess over k times s[k+1] - s[k], and s[k] at the end |
| `Percentile.OrderedIsSort` | packages/slo/src/percentile.ts:30-38 | any ordered list of the finite samples is the sorted one the percentile is read from |
| `Percentile.CountsBelow` | packages/slo/src/percentile.ts:38-46 | a value at most x means at least floor(rank)+1 finite samples are; a value above x means at most ceil(rank) are |
| `Percentile.CountsAbove` | packages/slo/src/percentile.ts:38-46 | a value at least x means at least n - ceil(rank) finite samples are; a value below x means fewer than n - floor(rank) are |
| `Slo.PassCounts` | packages/slo/src/assertions.ts:56-106 | a passing max target guarantees floor(p/100*(n-1))+1 finite samples within the threshold, a passing min target n - ceil(p/100*(n-1)) |
| `SloBounds.GuaranteeAttained` | packages/slo/src/assertions.ts:56-106 | for every percentile, number of samples, threshold and direction, some samples pass with exactly the guaranteed number within the threshold |
| `Slo.BreachCounts` | packages/slo/src/assertions.ts:84-98 | a breach bounds the samples within the threshold from above |
| `SloBounds.SufficiencyAttained` | packages/slo/src/assertions.ts:84-98 | and some breach it with exactly one less than the number that would make a breach impossible |
| `Slo.PassIffCounted` | packages/slo/src/assertions.ts:69-106 | when p / 100 * (n - 1) is whole, passing is exactly having one more than that many samples within a max threshold, or n less that many within a min one |
| `Slo.OutcomeMeans` | packages/slo/src/assertions.ts:69-106 | what a call answers for a declared target: the kind of target, the gate, the percentile's error, a breach, or the result, in this order |
| `Slo.FindTargetMeans` | packages/slo/src/registry.ts:33-44 | the target is the first one declared under the id, and an unknown id is an error |
| `Slo.PassCarriesOver` | packages/slo/src/assertions.ts:56-106 | a max pass at p is a pass at every smaller percentile, a min pass at every greater one |
| `Slo.WorseStaysBreached` | packages/slo/src/assertions.ts:69-106 | improving samples pointwise never turns a pass into a failure |
| `Slo.GateIff` | packages/slo/src/assertions.ts:74-83 | getting past the sample gate promises that many finite samples, for every gate, exactly when all samples are finite |
| `Slo.GateCountsNonFinite` | packages/slo/src/assertions.ts:74-83 | counterexample: one finite sample among three passes a gate of three |
| `Stages.StageForAdapter` | packages/fixture-replay/src/stages.ts:36-44 | exactly the stages whose list names the adapter, in stage order |
| `Stages.StageTable` | packages/fixture-replay/src/stages.ts:22-44 | the stages of each of the eight adapters that have any, and none for the others |
| `BaselineEvents.SynthesizeBaselineEvents` | packages/fixture-replay/src/events.ts:36-90 | the nested loops with their counter produce the numbered drafts of the sorted tools and invocations |
| `BaselineEvents.BaselineOnce` | packages/fixture-replay/src/events.ts:43-90 | one event for each absent tool and each invocation of a present one, no others, numbered from 1, all at the capture time |
| `BaselineEvents.BaselineOrdered` | packages/fixture-replay/src/events.ts:36-66 | the log goes through the tools in slug order and through the invocations of each in name order |
| `BaselineEvents.AbsentCarries` | packages/fixture-replay/src/events.ts:48-61 | an absent tool's event carries the tool and why it was skipped |
| `BaselineEvents.CapturedCarries` | packages/fixture-replay/src/events.ts:66-85 | an invocation's event carries the tool, the name and the envelope's values, with false and [] for missing ones |
| `BaselineEvents.SameSnapshot` | packages/fixture-replay/src/events.ts:36-66 | the log does not depend on the order in which tools and invocations are listed, unless names tie |
| `ReplayClient.Client.constructor` | packages/fixture-replay/src/client.ts:134-150 | the client boots with the baseline log and nothing else |
| `ReplayClient.Client.RecordStagesForAdapter` | packages/fixture-replay/src/client.ts:170-180 | the adapter's stages not yet reached are added with their markers, in order |
| `ReplayClient.Client.CallAdapter` | packages/fixture-replay/src/client.ts:194-218 | the object follows the value machine, and answers the capture whether or not the tool is present |
| `ReplayClient.CallLogs` | packages/fixture-replay/src/client.ts:194-215 | a call logs one event, numbered one after the last, at the capture time, and one record with that number, the time since boot and whether the tool is present |
| `ReplayClient.CallCarries` | packages/fixture-replay/src/client.ts:204-206 | that event carries adapter and method, and for an absent tool the reason |
| `ReplayClient.AnswersDocumentedIff` | packages/fixture-replay/src/client.ts:194-218 | it answers every call as documented exactly when every tool of the snapshot was present |
| `ReplayClient.AbsentAnswered` | packages/fixture-replay/src/client.ts:194-218 | counterexample: the capture of an absent tool is answered |
| `ReplayClient.Client.GetAdapterInvocation` | packages/fixture-replay/src/client.ts:220-225 | an envelope is found exactly when the tool is present and has the invocation; nothing changes |
| `ReplayClient.Client.MarkStageReached` | packages/fixture-replay/src/client.ts:227-236 | the object follows the value machine; a stage already reached changes nothing |
| `ReplayClient.Client.Emit` | packages/fixture-replay/src/client.ts:240-249 | the event is appended with its own number, raised to the next expected one if lower |
| `ReplayClient.EmitNumbers` | packages/fixture-replay/src/client.ts:240-249 | an emitted event keeps everything but a number that is behind, and nothing else changes |
| `ReplayClient.NumberedOn` | packages/fixture-replay/src/client.ts:134-218 | without emitted events, every reachable log is numbered 1, 2, 3 and so on, baseline included |
| `ReplayClient.Client.Close` | packages/fixture-replay/src/client.ts:254-257 | closing is idempotent and keeps everything else |
| `ReplayClient.AppendOnly` | packages/fixture-replay/src/client.ts:134-258 | over any calls, log, records, stages and markers only grow at the end, and after closing nothing changes |
| `ReplayClient.LogIncreasing` | packages/fixture-replay/src/client.ts:162-168 | in every reachable state the log's numbers strictly increase |
| `ReplayClient.CallsNameOneEvent` | packages/fixture-replay/src/client.ts:194-214 | in every reachable state a record's number is that of exactly one event, of type adapter.invoked if and only if the tool is present, carrying adapter and method |
| `ReplayClient.HistoryOfCalls` | packages/fixture-replay/src/client.ts:194-249 | the records are those of the adapter calls made before closing, in order, and the log grew by one event for each call and emission |
| `ReplayClient.StagesReached` | packages/fixture-replay/src/client.ts:170-236 | a stage is reached exactly when, before closing, one of its adapters was called or it was marked |
| `ReplayClient.StagesMarked` | packages/fixture-replay/src/client.ts:170-236 | reached stages are distinct and have one marker each, in the same order |
| `ReplayClient.MarkersTell` | packages/fixture-replay/src/client.ts:170-236 | every marker is that of a call made before closing, with its reason and its time since boot |
| `Capabilities.CanonicalMeans` | packages/fixtures/replay/scenario-source.ts:226-235 | canonical ids stand for themselves, and two ids have the same canonical id only if equal or alias and target |
| `Capabilities.NormalizeCapability` | packages/fixtures/replay/scenario-source.ts:246-282 | succeeds exactly on objects with a known status and, if any, a known transport; otherwise reports the first thing wrong |
| `Capabilities.FitsMeans` | packages/fixtures/replay/scenario-source.ts:246-282 | which raw values are accepted, with the five statuses and the five transports |
| `Capabilities.CapabilityCarries` | packages/fixtures/replay/scenario-source.ts:265-281 | each property comes from the raw one of its name, if that is a string |
| `Capabilities.CapabilityKeeps` | packages/fixtures/replay/scenario-source.ts:265-281 | status, fallback, transport and notes keep their values, everything else is gone |
| `Capabilities.NormalizeCapabilitiesMap` | packages/fixtures/replay/scenario-source.ts:332-342 | succeeds exactly when every capability fits, key by key in order; otherwise blames the first that does not |
| `Capabilities.NormalizeToolReport` | packages/fixtures/replay/scenario-source.ts:295-330 | succeeds exactly on known tools whose full report names the tool or whose bare entry is all capabilities; otherwise says why |
| `Capabilities.ReportMeans` | packages/fixtures/replay/scenario-source.ts:284-293 | which objects are full reports |
| `Capabilities.FreshCarries` | packages/fixtures/replay/scenario-source.ts:322-329 | what the report made for a bare entry holds |
| `Capabilities.ReportTwice` | packages/fixtures/replay/scenario-source.ts:295-330 | a normalised report is a full report of its tool, and normalising it again changes nothing |
| `Capabilities.AddToolReport` | packages/fixtures/replay/scenario-source.ts:404-419 | adds a report under the canonical id, or reports an unknown tool, a duplicate, or what is wrong with the report |
| `Capabilities.AddToolReports` | packages/fixtures/replay/scenario-source.ts:373-391 | succeeds exactly when every entry fits and no two share a canonical id; otherwise blames the first that cannot be added |
| `Capabilities.NormalizeCapabilityRegistry` | packages/fixtures/replay/scenario-source.ts:344-402 | accepts exactly the well-formed inputs of either shape, with the registry they denote, and otherwise names the first fault |
| `Capabilities.EnvelopeMeans` | packages/fixtures/replay/scenario-source.ts:353-377 | which objects are taken for an envelope, and which envelopes are accepted |
| `Capabilities.RegistryCarries` | packages/fixtures/replay/scenario-source.ts:382-401 | the registry keeps what an envelope says of itself and fills it in for a bare map of tools |
| `Capabilities.OneReportEach` | packages/fixtures/replay/scenario-source.ts:344-419 | one report for each input entry, in order, under distinct canonical ids, each naming its own key |
| `Capabilities.AliasOrId` | packages/fixtures/replay/scenario-source.ts:404-419 | a registry that names a tool both by alias and by id is refused |
| `Capabilities.RegistryTwice` | packages/fixtures/replay/scenario-source.ts:344-402 | normalising a normalised registry, with any metadata, changes nothing |

## Left out

- Numbers in JSON are their shortest decimal renderings, and numeric keywords compare the reals these denote; floating-point rounding, -0 and NaN are not modelled.
- Characters stand for UTF-16 units: surrogate pairs, well-formed `JSON.stringify` of lone surrogates, and code-unit order beyond one unit per character are not modelled.
- Objects are lists of properties in insertion order; integer-like keys, which JavaScript lists first, and prototype keys such as `constructor` are not modelled.
- Timestamps are integers and sequence numbers naturals; `Date.parse` is not modelled, and neither are numbers that are negative or fractional.
- Comparison by `localeCompare` is a parameter, a total preorder where order matters; regular expressions of schema patterns are an abstract matcher.
- Sleepers, clocks and callbacks are signals and parameters; a clock that moves during one synchronous call, a throwing `onEnd` or `onCancel`, and console output are not modelled.
- The subscriber the mock client wraps around a callback has neither onEnd nor onCancel; a session still records the call it would make.
- `swapScenario` receives the loaded events; finding and reading the scenario on disk is not part of this model.
- Of schemas/br.schema.json the payload part is transcribed; the envelope around it is not.
- `runToolConformance` is modelled from the findings gathered on; the golden files, `normalizeOutput`, capability findings and negative cases are not part of this model.
- `collectCommandUses` and `scanFile` are modelled in the positions they report for any match; their regular expressions, policies, suppression comments and the trimming of snippets are not.
- `DAGView` is modelled up to `positions`; edges and rendering are left out. With no beads the source's W is not finite; here it is absent. Cyclic or duplicate bead ids are outside the domain, where `layerOf` need not terminate.
- Lines of `go test -json` are taken after trimming and decoding; a line that is not an object of the declared types is not modelled.
- Elapsed times are reals; an infinite one counts as absent.
- `expectSloPass`, `expectSloBoolean` and the loading of target files are left out; error messages are reduced to their data.
- `toolPresence`, `capabilities`, `health` and the other plain readers of the replay client are left out.
- ReplayClient.Client.GetAdapterInvocation: the answer is the envelope of one of the invocations with that name, because a snapshot has one entry a name.
- Walking directories, spawning processes, servers and the desktop bridge are not part of this model.
