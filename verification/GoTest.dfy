/** packages/test-evidence/src/go-json-parser.ts: turning the interleaved event
    stream of `go test -json` into one result per test.

    A line is taken after `trim` and `JSON.parse`; a line that does not parse is
    `Malformed`. */
module GoTest {
  import opened Sorting
  import opened Json

  datatype Action = Pass | Fail | Skip | Output | OtherAction

  datatype Line =
    | Blank
    | Malformed(text: string)
    | Decoded(action: Action, pkg: Option<string>, test: Option<string>, output: Option<string>, elapsed: Option<real>)

  datatype Status = Passed | Failed | Skipped

  datatype Aggregate = Aggregate(pkg: string, test: string, status: Option<Status>, elapsedMs: nat,
      outputs: seq<string>, hasSubtests: bool)

  datatype TestCase = TestCase(name: string, file: string, status: Status, durationMs: nat,
      errorMessage: Option<string>)

  datatype BuildError = MalformedLine(text: string) | PackageFailed(pkg: string) | BuildOutput(text: string)

  // ----- one line

  /** A line about a test, as opposed to a whole package. */
  predicate IsTest(l: Line) {
    l.Decoded? && l.test.Some? && l.test.value != ""
  }

  function Package(l: Line): string {
    if l.Decoded? && l.pkg.Some? then l.pkg.value else ""
  }

  function TestName(l: Line): string {
    if l.Decoded? && l.test.Some? then l.test.value else ""
  }

  const COLONS := "::"

  function KeyOf(pkg: string, test: string): string {
    pkg + COLONS + test
  }

  function Key(l: Line): string {
    KeyOf(Package(l), TestName(l))
  }

  /** `s.indexOf("/")`, with |s| for none */
  function FirstSlash(s: string): (i: nat)
    ensures i <= |s| && (forall j | 0 <= j < i :: s[j] != '/') && (i < |s| ==> s[i] == '/')
  {
    if s == "" || s[0] == '/' then 0 else 1 + FirstSlash(s[1..])
  }

  predicate IsSubtest(l: Line) {
    IsTest(l) && 0 < FirstSlash(TestName(l)) < |TestName(l)|
  }

  function ParentKey(l: Line): string {
    KeyOf(Package(l), TestName(l)[..FirstSlash(TestName(l))])
  }

  function StatusFromAction(a: Action): Option<Status> {
    match a
    case Pass => Some(Passed)
    case Fail => Some(Failed)
    case Skip => Some(Skipped)
    case _ => None
  }

  predicate Terminal(l: Line) {
    l.Decoded? && StatusFromAction(l.action).Some?
  }

  predicate Timed(l: Line) {
    Terminal(l) && l.elapsed.Some?
  }

  predicate Printed(l: Line) {
    l.Decoded? && l.action == Output && l.output.Some?
  }

  /** `Math.max(0, Math.round(elapsed * 1000))` */
  function Millis(elapsed: real): nat {
    var ms := (elapsed * 1000.0 + 0.5).Floor;
    if ms < 0 then 0 else ms
  }

  // ----- text

  /** White space and line terminators (ECMA-262, sections 12.2 and 12.3). */
  predicate Space(c: char) {
    || '\t' <= c <= '\r' || c == ' ' || c == '\U{A0}' || c == '\U{1680}' || '\U{2000}' <= c <= '\U{200A}'
    || c == '\U{2028}' || c == '\U{2029}' || c == '\U{202F}' || c == '\U{205F}' || c == '\U{3000}' || c == '\U{FEFF}'
  }

  function TrimStart(s: string): string {
    if s != "" && Space(s[0]) then TrimStart(s[1..]) else s
  }

  function TrimEnd(s: string): string {
    if s != "" && Space(s[|s| - 1]) then TrimEnd(s[..|s| - 1]) else s
  }

  function Trim(s: string): string {
    TrimEnd(TrimStart(s))
  }

  function Slice(s: string, n: nat): string {
    if |s| <= n then s else s[..n]
  }

  function Last<T>(s: seq<T>, n: nat): seq<T> {
    if |s| <= n then s else s[|s| - n..]
  }

  function Joined(parts: seq<string>): string {
    if parts == [] then "" else parts[0] + Joined(parts[1..])
  }

  /** `/^FAIL\s/` and `/\[build failed\]/` */
  predicate ReportsFailure(out: string) {
    || (|out| > 4 && out[..4] == "FAIL" && Space(out[4]))
    || exists i | 0 <= i <= |out| - |BUILD_FAILED| :: At(out, i, BUILD_FAILED)
  }

  const BUILD_FAILED := "[build failed]"

  predicate At(out: string, i: nat, part: string) {
    i + |part| <= |out| && out[i..i + |part|] == part
  }

  // ----- what the lines of one test say

  function StatusOf(own: seq<Line>): Option<Status> {
    if own == [] then None
    else if Terminal(own[|own| - 1]) then StatusFromAction(own[|own| - 1].action)
    else StatusOf(own[..|own| - 1])
  }

  function MillisOf(own: seq<Line>): nat {
    if own == [] then 0
    else if Timed(own[|own| - 1]) then Millis(own[|own| - 1].elapsed.value)
    else MillisOf(own[..|own| - 1])
  }

  function OutputsOf(own: seq<Line>): seq<string> {
    if own == [] then []
    else OutputsOf(own[..|own| - 1]) + if Printed(own[|own| - 1]) then [own[|own| - 1].output.value] else []
  }

  function Gathered(own: seq<Line>): Aggregate {
    Aggregate(if own == [] then "" else Package(own[0]), if own == [] then "" else TestName(own[0]),
              StatusOf(own), MillisOf(own), OutputsOf(own), false)
  }

  function ErrorMessage(status: Status, outputs: seq<string>): Option<string> {
    var tail := Trim(Joined(Last(outputs, 20)));
    if status == Failed && tail != "" then Some(Slice(tail, 4000)) else None
  }

  function Emitted(agg: Aggregate): TestCase {
    var status := if agg.status.Some? then agg.status.value else Skipped;
    TestCase(agg.test, agg.pkg, status, agg.elapsedMs, ErrorMessage(status, agg.outputs))
  }

  // ----- what all the lines say

  function OfKey(key: string): Line -> bool {
    l => IsTest(l) && Key(l) == key
  }

  /** The lines of one key, in order. */
  function Own(lines: seq<Line>, key: string): seq<Line> {
    Filtered(lines, OfKey(key))
  }

  /** The keys seen, each once, in order of first appearance: the order of the
      aggregate map. */
  function KeysSeen(lines: seq<Line>): seq<string> {
    if lines == [] then []
    else
      var l := lines[|lines| - 1];
      var before := KeysSeen(lines[..|lines| - 1]);
      if IsTest(l) && Key(l) !in before then before + [Key(l)] else before
  }

  ghost predicate IsParent(lines: seq<Line>, key: string) {
    exists l | l in lines :: IsSubtest(l) && ParentKey(l) == key
  }

  ghost function NoParent(lines: seq<Line>): string -> bool {
    key => !IsParent(lines, key)
  }

  /** The keys a result is emitted for. */
  ghost function Kept(lines: seq<Line>): seq<string> {
    Filtered(KeysSeen(lines), NoParent(lines))
  }

  function CaseOf(lines: seq<Line>, key: string): TestCase {
    Emitted(Gathered(Own(lines, key)))
  }

  function CasesOf(lines: seq<Line>, keys: seq<string>): seq<TestCase> {
    if keys == [] then [] else CasesOf(lines, keys[..|keys| - 1]) + [CaseOf(lines, keys[|keys| - 1])]
  }

  function CaseLe(nameLe: (string, string) -> bool): (TestCase, TestCase) -> bool {
    (x: TestCase, y: TestCase) => nameLe(x.name, y.name)
  }

  ghost function Results(lines: seq<Line>, nameLe: (string, string) -> bool): seq<TestCase> {
    Sort(CasesOf(lines, Kept(lines)), CaseLe(nameLe))
  }

  function BuildErrorsOf(l: Line): seq<BuildError> {
    if l.Malformed? then [MalformedLine(Slice(l.text, 200))]
    else if l.Decoded? && !IsTest(l) && l.pkg.Some? then
      (if l.action == Fail then [PackageFailed(l.pkg.value)] else [])
      + (if Printed(l) && ReportsFailure(Trim(l.output.value)) then [BuildOutput(Trim(l.output.value))] else [])
    else []
  }

  function BuildErrors(lines: seq<Line>): seq<BuildError> {
    if lines == [] then [] else BuildErrors(lines[..|lines| - 1]) + BuildErrorsOf(lines[|lines| - 1])
  }

  // ----- the parser

  lemma OwnMore(before: seq<Line>, l: Line, key: string)
    ensures Own(before + [l], key) == if IsTest(l) && Key(l) == key then Own(before, key) + [l] else Own(before, key)
  {
    FilteredAppend(before, [l], OfKey(key));
    FilteredOne(l, OfKey(key));
  }

  lemma {:induction false} KeysMore(before: seq<Line>, l: Line)
    ensures KeysSeen(before + [l])
        == if IsTest(l) && Key(l) !in KeysSeen(before) then KeysSeen(before) + [Key(l)] else KeysSeen(before)
  {
    assert (before + [l])[..|before|] == before;
  }

  lemma {:induction false} KeysMean(lines: seq<Line>)
    ensures forall key :: key in KeysSeen(lines) <==> Own(lines, key) != []
    ensures forall i, j | 0 <= i < j < |KeysSeen(lines)| :: KeysSeen(lines)[i] != KeysSeen(lines)[j]
  {
    if lines != [] {
      var n := |lines| - 1;
      assert lines == lines[..n] + [lines[n]];
      KeysMean(lines[..n]);
      KeysMore(lines[..n], lines[n]);
      forall key
        ensures key in KeysSeen(lines) <==> Own(lines, key) != []
      {
        OwnMore(lines[..n], lines[n], key);
      }
    }
  }

  function Updated(agg: Aggregate, l: Line): Aggregate
    requires IsTest(l)
  {
    var a := if Printed(l) then agg.(outputs := agg.outputs + [l.output.value]) else agg;
    var b := if Terminal(l) then a.(status := StatusFromAction(l.action)) else a;
    if Timed(l) then b.(elapsedMs := Millis(l.elapsed.value)) else b
  }

  lemma {:induction false} SaysMore(own: seq<Line>, l: Line)
    ensures StatusOf(own + [l]) == if Terminal(l) then StatusFromAction(l.action) else StatusOf(own)
    ensures MillisOf(own + [l]) == if Timed(l) then Millis(l.elapsed.value) else MillisOf(own)
    ensures OutputsOf(own + [l]) == if Printed(l) then OutputsOf(own) + [l.output.value] else OutputsOf(own)
  {
    hide Millis, StatusFromAction;
    var more := own + [l];
    assert more[..|more| - 1] == own && more[|more| - 1] == l;
  }

  lemma SaysNothing()
    ensures StatusOf([]) == None && MillisOf([]) == 0 && OutputsOf([]) == []
  {
  }

  lemma GatheredMore(own: seq<Line>, l: Line)
    requires IsTest(l)
    ensures Gathered(own + [l])
         == Updated(if own == [] then Aggregate(Package(l), TestName(l), None, 0, [], false) else Gathered(own), l)
  {
    hide StatusOf, MillisOf, OutputsOf, Package, TestName, Terminal, Timed, Printed, Millis, StatusFromAction;
    SaysMore(own, l);
    assert own != [] ==> (own + [l])[0] == own[0];
    if own == [] { SaysNothing(); }
  }

  /** The state after the loop has consumed `lines`. */
  ghost predicate Consumed(lines: seq<Line>, keys: seq<string>, aggregates: map<string, Aggregate>,
      parentNames: set<string>) {
    && keys == KeysSeen(lines)
    && (forall k :: k in aggregates <==> k in keys)
    && (forall k | k in keys :: aggregates[k] == Gathered(Own(lines, k)))
    && (forall k :: k in parentNames <==> IsParent(lines, k))
  }

  lemma ConsumedOther(lines: seq<Line>, keys: seq<string>, aggregates: map<string, Aggregate>,
      parentNames: set<string>, l: Line)
    requires Consumed(lines, keys, aggregates, parentNames) && !IsTest(l)
    ensures Consumed(lines + [l], keys, aggregates, parentNames)
  {
    KeysMore(lines, l);
    OwnMoreAll(lines, l);
  }

  lemma ConsumedTest(lines: seq<Line>, keys: seq<string>, aggregates: map<string, Aggregate>, parentNames: set<string>,
      l: Line, first: Aggregate)
    requires Consumed(lines, keys, aggregates, parentNames) && IsTest(l)
    requires first == if Key(l) in keys then aggregates[Key(l)]
        else Aggregate(Package(l), TestName(l), None, 0, [], false)
    ensures Consumed(lines + [l], if Key(l) in keys then keys else keys + [Key(l)],
                     aggregates[Key(l) := Updated(first, l)],
                     if IsSubtest(l) then parentNames + {ParentKey(l)} else parentNames)
  {
    hide Gathered, IsParent, Updated, IsTest, IsSubtest, Key, ParentKey, Package, TestName, KeyOf, FirstSlash;
    KeysMore(lines, l);
    KeysMean(lines);
    OwnMoreAll(lines, l);
    GatheredMore(Own(lines, Key(l)), l);
  }

  lemma NotYetParents(lines: seq<Line>, keys: seq<string>)
    requires keys == KeysSeen(lines)
    ensures forall k | k in keys :: !Gathered(Own(lines, k)).hasSubtests
  {
  }

  lemma OwnMoreAll(before: seq<Line>, l: Line)
    ensures forall key ::
        Own(before + [l], key) == if IsTest(l) && Key(l) == key then Own(before, key) + [l] else Own(before, key)
    ensures forall key ::
        IsParent(before + [l], key) <==> IsParent(before, key) || (IsSubtest(l) && ParentKey(l) == key)
  {
    forall key
      ensures Own(before + [l], key) == if IsTest(l) && Key(l) == key then Own(before, key) + [l] else Own(before, key)
      ensures IsParent(before + [l], key) <==> IsParent(before, key) || (IsSubtest(l) && ParentKey(l) == key)
    {
      OwnMore(before, l, key);
      assert forall x :: x in before + [l] <==> x in before || x == l;
    }
  }

  method MarkParents(aggregates: map<string, Aggregate>, parentNames: set<string>)
      returns (marked: map<string, Aggregate>)
    ensures marked.Keys == aggregates.Keys
    ensures forall k | k in aggregates ::
              marked[k] == if k in parentNames then aggregates[k].(hasSubtests := true) else aggregates[k]
  {
    marked := aggregates;
    var todo := parentNames;
    while todo != {}
      invariant todo <= parentNames
      invariant marked.Keys == aggregates.Keys
      invariant forall k | k in aggregates ::
                  marked[k] == if k in parentNames - todo then aggregates[k].(hasSubtests := true) else aggregates[k]
    {
      var parentKey :| parentKey in todo;
      todo := todo - {parentKey};
      if parentKey in marked {
        marked := marked[parentKey := marked[parentKey].(hasSubtests := true)];
      }
    }
  }

  method Absorb(first: Aggregate, l: Line) returns (agg: Aggregate)
    requires IsTest(l)
    ensures agg == Updated(first, l)
  {
    agg := first;
    if l.action == Output && l.output.Some? {
      agg := agg.(outputs := agg.outputs + [l.output.value]);
    }
    var status := StatusFromAction(l.action);
    if status.Some? {
      agg := agg.(status := status);
      if l.elapsed.Some? {
        agg := agg.(elapsedMs := Millis(l.elapsed.value));
      }
    }
  }

  method PackageErrors(l: Line) returns (errors: seq<BuildError>)
    requires !IsTest(l)
    ensures errors == BuildErrorsOf(l)
  {
    errors := [];
    if l.Malformed? {
      errors := errors + [MalformedLine(Slice(l.text, 200))];
    } else if l.Decoded? {
      if l.action == Fail && l.pkg.Some? {
        errors := errors + [PackageFailed(l.pkg.value)];
      }
      if l.action == Output && l.output.Some? && l.pkg.Some? {
        var out := Trim(l.output.value);
        if ReportsFailure(out) {
          errors := errors + [BuildOutput(out)];
        }
      }
    }
  }

  method EmitCase(agg: Aggregate) returns (result: TestCase)
    ensures result == Emitted(agg)
  {
    var status := if agg.status.Some? then agg.status.value else Skipped;
    result := TestCase(agg.test, agg.pkg, status, agg.elapsedMs, None);
    if status == Failed {
      var tail := Trim(Joined(Last(agg.outputs, 20)));
      if |tail| > 0 {
        result := result.(errorMessage := Some(Slice(tail, 4000)));
      }
    }
  }

  method EmitLeaves(ghost lines: seq<Line>, keys: seq<string>, aggregates: map<string, Aggregate>)
      returns (cases: seq<TestCase>)
    requires keys == KeysSeen(lines)
    requires forall k | k in keys :: k in aggregates && aggregates[k].hasSubtests == IsParent(lines, k)
    requires forall k | k in keys :: aggregates[k].(hasSubtests := false) == Gathered(Own(lines, k))
    ensures cases == CasesOf(lines, Kept(lines))
  {
    hide Gathered, IsParent, Own, Emitted;
    cases := [];
    for i := 0 to |keys|
      invariant cases == CasesOf(lines, Filtered(keys[..i], NoParent(lines)))
    {
      var agg := aggregates[keys[i]];
      assert keys[i] in keys;
      assert keys[..i + 1] == keys[..i] + [keys[i]];
      KeptMore(lines, keys[..i], keys[i]);
      if !agg.hasSubtests {
        var result := EmitCase(agg);
        EmittedAlike(agg);
        cases := cases + [result];
      }
    }
    assert keys[..|keys|] == keys;
  }

  lemma EmittedAlike(agg: Aggregate)
    ensures Emitted(agg) == Emitted(agg.(hasSubtests := false))
  {
  }

  lemma KeptMore(lines: seq<Line>, keys: seq<string>, key: string)
    ensures var kept := Filtered(keys + [key], NoParent(lines));
            CasesOf(lines, kept)
            == CasesOf(lines, Filtered(keys, NoParent(lines)))
               + if IsParent(lines, key) then [] else [CaseOf(lines, key)]
  {
    hide CaseOf, IsParent;
    FilteredAppend(keys, [key], NoParent(lines));
    FilteredOne(key, NoParent(lines));
    var f := Filtered(keys, NoParent(lines));
    assert (f + [key])[..|f|] == f;
    assert f + [] == f;
  }

  lemma NothingConsumed()
    ensures Consumed([], [], map[], {})
  {
  }

  lemma {:induction false} BuildErrorsMore(before: seq<Line>, l: Line)
    ensures BuildErrors(before + [l]) == BuildErrors(before) + BuildErrorsOf(l)
    ensures IsTest(l) ==> BuildErrors(before + [l]) == BuildErrors(before)
  {
    assert (before + [l])[..|before|] == before;
  }

  method ParseGoTestNdjson(lines: seq<Line>, nameLe: (string, string) -> bool)
    returns (testCount: nat, cases: seq<TestCase>, buildErrors: seq<BuildError>)
    ensures cases == Results(lines, nameLe)
    ensures testCount == |cases|
    ensures buildErrors == BuildErrors(lines)
  {
    hide Gathered, IsParent, IsTest, IsSubtest, Key, ParentKey, Package, TestName, KeyOf, FirstSlash, Own;
    hide ReportsFailure, Trim, Last, Slice, Joined, Millis, StatusFromAction, Terminal, Timed;
    var keys: seq<string> := [];
    var aggregates: map<string, Aggregate> := map[];
    var parentNames: set<string> := {};
    buildErrors := [];
    NothingConsumed();
    for i := 0 to |lines|
      invariant Consumed(lines[..i], keys, aggregates, parentNames)
      invariant buildErrors == BuildErrors(lines[..i])
    {
      var l := lines[i];
      assert lines[..i + 1] == lines[..i] + [l];
      BuildErrorsMore(lines[..i], l);
      if IsTest(l) {
        var key := Key(l);
        var agg := Aggregate(Package(l), TestName(l), None, 0, [], false);
        if key in aggregates {
          agg := aggregates[key];
        }
        ConsumedTest(lines[..i], keys, aggregates, parentNames, l, agg);
        if key !in aggregates {
          keys := keys + [key];
        }
        if IsSubtest(l) {
          parentNames := parentNames + {ParentKey(l)};
        }
        agg := Absorb(agg, l);
        aggregates := aggregates[key := agg];
      } else {
        ConsumedOther(lines[..i], keys, aggregates, parentNames, l);
        var errors := PackageErrors(l);
        buildErrors := buildErrors + errors;
      }
    }
    assert lines[..|lines|] == lines;
    NotYetParents(lines, keys);
    aggregates := MarkParents(aggregates, parentNames);
    cases := EmitLeaves(lines, keys, aggregates);
    SortMultiset(cases, CaseLe(nameLe));
    cases := Sort(cases, CaseLe(nameLe));
    testCount := |cases|;
  }
}
