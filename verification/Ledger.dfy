/** packages/fixtures/conformance/harness.ts: findings, the ledger of expected
    ones, and `assertToolConformance`. */
module Ledger {
  import opened Sorting
  import opened Json
  import opened CanonicalJson

  datatype Finding = Finding(id: string, expected: bool, message: string, where: string)

  /** `finding`: a finding is expected when the tool's ledger lists its id. */
  function MakeFinding(ledger: seq<string>, id: string, message: string, where: string): Finding {
    Finding(id, id in ledger, message, where)
  }

  function DriftId(tool: string, id: string): string {
    tool + ".expected-drift-resolved." + id
  }

  function Drift(tool: string, ledger: seq<string>, id: string): Finding {
    MakeFinding(ledger, DriftId(tool, id),
      "expected drift " + id + " was not observed; update the conformance harness and review ledger",
      "packages/fixtures/conformance/harness.ts")
  }

  predicate Seen(findings: seq<Finding>, id: string) {
    exists i | 0 <= i < |findings| :: findings[i].id == id
  }

  /** The ledger loop over `rest`, the ids still to look at. */
  function Closed(tool: string, ledger: seq<string>, rest: seq<string>, findings: seq<Finding>): seq<Finding>
    decreases |rest|
  {
    if rest == [] then findings
    else Closed(tool, ledger, rest[1..],
                if Seen(findings, rest[0]) then findings else findings + [Drift(tool, ledger, rest[0])])
  }

  method CloseLedger(tool: string, ledger: seq<string>, gathered: seq<Finding>) returns (findings: seq<Finding>)
    ensures findings == Closed(tool, ledger, ledger, gathered)
    ensures gathered <= findings
    ensures forall id | id in ledger :: Seen(findings, id) || Drift(tool, ledger, id) in findings
  {
    hide Drift;
    findings := gathered;
    for i := 0 to |ledger|
      invariant Closed(tool, ledger, ledger[i..], findings) == Closed(tool, ledger, ledger, gathered)
      invariant gathered <= findings
      invariant forall k | 0 <= k < i :: Seen(findings, ledger[k]) || Drift(tool, ledger, ledger[k]) in findings
    {
      var expectedId := ledger[i];
      assert ledger[i..][0] == expectedId && ledger[i..][1..] == ledger[i + 1..];
      ghost var before := findings;
      if !Seen(findings, expectedId) {
        findings := findings + [Drift(tool, ledger, expectedId)];
      }
      forall k | 0 <= k < i && Seen(before, ledger[k])
        ensures Seen(findings, ledger[k])
      {
        var j :| 0 <= j < |before| && before[j].id == ledger[k];
        assert findings[j].id == ledger[k];
      }
    }
    assert ledger[|ledger|..] == [];
  }

  /** Findings are made by `finding`. */
  ghost predicate Flagged(findings: seq<Finding>, ledger: seq<string>) {
    forall f | f in findings :: f.expected <==> f.id in ledger
  }

  predicate AllExpected(findings: seq<Finding>) {
    forall i | 0 <= i < |findings| :: findings[i].expected
  }

  /** The ledger lists none of the ids the loop itself reports. */
  ghost predicate NoDriftIds(tool: string, ledger: seq<string>) {
    forall id | id in ledger :: DriftId(tool, id) !in ledger
  }

  function Ids(findings: seq<Finding>): (r: seq<string>)
    ensures |r| == |findings| && forall i | 0 <= i < |findings| :: r[i] == findings[i].id
  {
    if findings == [] then [] else [findings[0].id] + Ids(findings[1..])
  }

  lemma SeenIff(findings: seq<Finding>, id: string)
    ensures Seen(findings, id) <==> id in Ids(findings)
  {
    if Seen(findings, id) {
      var i :| 0 <= i < |findings| && findings[i].id == id;
      assert Ids(findings)[i] == id;
    }
  }

  /** The loop adds nothing when every remaining id was observed. */
  lemma {:induction false} ClosedSame(tool: string, ledger: seq<string>, rest: seq<string>, findings: seq<Finding>)
    requires forall id | id in rest :: Seen(findings, id)
    ensures Closed(tool, ledger, rest, findings) == findings
    decreases |rest|
  {
    if rest != [] {
      assert rest[0] in rest;
      ClosedSame(tool, ledger, rest[1..], findings);
    }
  }

  /** Without drift ids in the ledger, anything the loop adds is unexpected. */
  lemma {:induction false} ClosedUnexpected(tool: string, ledger: seq<string>, rest: seq<string>,
      findings: seq<Finding>)
    requires NoDriftIds(tool, ledger) && forall id | id in rest :: id in ledger
    requires !(AllExpected(findings) && forall id | id in rest :: Seen(findings, id))
    ensures !AllExpected(Closed(tool, ledger, rest, findings))
    decreases |rest|
  {
    hide DriftId;
    if rest != [] {
      var id := rest[0];
      var next := if Seen(findings, id) then findings else findings + [Drift(tool, ledger, id)];
      assert forall x :: x in rest <==> x == id || x in rest[1..];
      if Seen(findings, id) {
      } else {
        assert !next[|findings|].expected;
      }
      if AllExpected(next) {
        assert AllExpected(findings) by { assert forall i | 0 <= i < |findings| :: next[i] == findings[i]; }
      }
      ClosedUnexpected(tool, ledger, rest[1..], next);
    }
  }

  /** A tool has no unexpected finding exactly when the ids observed are the ids
      in its ledger. */
  lemma NoneUnexpectedIff(tool: string, ledger: seq<string>, gathered: seq<Finding>)
    requires Flagged(gathered, ledger) && NoDriftIds(tool, ledger)
    ensures AllExpected(Closed(tool, ledger, ledger, gathered))
       <==> forall id :: id in ledger <==> id in Ids(gathered)
  {
    var all := AllExpected(gathered) && forall id | id in ledger :: Seen(gathered, id);
    if all { ClosedSame(tool, ledger, ledger, gathered); } else { ClosedUnexpected(tool, ledger, ledger, gathered); }
    forall id ensures Seen(gathered, id) <==> id in Ids(gathered) { SeenIff(gathered, id); }
    assert AllExpected(gathered) <==> forall id | id in Ids(gathered) :: id in ledger by {
      forall i | 0 <= i < |gathered|
        ensures gathered[i].expected <==> Ids(gathered)[i] in ledger
      {
        assert gathered[i] in gathered;
      }
      if AllExpected(gathered) {
        forall id | id in Ids(gathered) ensures id in ledger { var i :| 0 <= i < |gathered| && Ids(gathered)[i] == id; }
      }
    }
  }

  /** A ledger that lists a drift id can hide a finding that no longer occurs. */
  lemma DriftIdHides(tool: string, id: string)
    ensures var ledger := [id, DriftId(tool, id)];
            AllExpected(Closed(tool, ledger, ledger, [])) && id !in Ids([])
  {
    var d := DriftId(tool, id);
    var ledger := [id, d];
    var f := Drift(tool, ledger, id);
    assert f.id == d == ledger[1] && |d| > |id|;
    assert ledger[1..] == [d];
    assert [] + [f] == [f] && [f][0].id == d && Seen([f], d);
    assert Closed(tool, ledger, [d], [f]) == Closed(tool, ledger, [d][1..], [f]) == [f];
  }

  /** No unexpected finding means that what was observed is what was listed. */
  ghost predicate ExpectationsExact(tool: string, ledger: seq<string>) {
    forall gathered | Flagged(gathered, ledger) ::
      AllExpected(Closed(tool, ledger, ledger, gathered)) <==> forall id :: id in ledger <==> id in Ids(gathered)
  }

  /** The absence of unexpected findings can be relied on, whatever is gathered,
      exactly when the ledger lists no drift id of one of its ids. */
  lemma ExpectationsExactIff(tool: string, ledger: seq<string>)
    ensures ExpectationsExact(tool, ledger) <==> NoDriftIds(tool, ledger)
  {
    if NoDriftIds(tool, ledger) {
      forall gathered | Flagged(gathered, ledger)
        ensures AllExpected(Closed(tool, ledger, ledger, gathered))
           <==> forall id :: id in ledger <==> id in Ids(gathered)
      {
        NoneUnexpectedIff(tool, ledger, gathered);
      }
    } else {
      var id :| id in ledger && DriftId(tool, id) in ledger;
      var gathered := OneOfEach(ledger, ledger, id);
      forall x ensures Seen(gathered, x) <==> x in Ids(gathered) { SeenIff(gathered, x); }
      ClosedHides(tool, ledger, ledger, gathered, id);
      assert Flagged(gathered, ledger);
    }
  }

  /** A finding for every id of `rest` but `hidden`. */
  function OneOfEach(ledger: seq<string>, rest: seq<string>, hidden: string): (r: seq<Finding>)
    ensures Flagged(r, ledger)
    ensures forall id :: id in Ids(r) <==> id in rest && id != hidden
    ensures (forall id | id in rest :: id in ledger) ==> AllExpected(r)
  {
    if rest == [] then []
    else
      var more := OneOfEach(ledger, rest[1..], hidden);
      assert forall x :: x in rest <==> x == rest[0] || x in rest[1..];
      if rest[0] == hidden then more
      else
        var f := MakeFinding(ledger, rest[0], "", "");
        assert ([f] + more)[1..] == more;
        [f] + more
  }

  /** If only `hidden` was not observed and its drift id is listed, the loop adds
      expected findings only. */
  lemma {:induction false} ClosedHides(tool: string, ledger: seq<string>, rest: seq<string>, findings: seq<Finding>,
      hidden: string)
    requires AllExpected(findings) && DriftId(tool, hidden) in ledger
    requires forall id | id in rest && id != hidden :: Seen(findings, id)
    ensures AllExpected(Closed(tool, ledger, rest, findings))
    decreases |rest|
  {
    hide DriftId;
    if rest != [] {
      assert rest[0] in rest;
      var next := if Seen(findings, rest[0]) then findings else findings + [Drift(tool, ledger, rest[0])];
      forall id | id in rest[1..] && id != hidden
        ensures Seen(next, id)
      {
        SeenMore(findings, next, id);
      }
      ClosedHides(tool, ledger, rest[1..], next, hidden);
    }
  }

  lemma SeenMore(findings: seq<Finding>, more: seq<Finding>, id: string)
    requires Seen(findings, id) && findings <= more
    ensures Seen(more, id)
  {
    var i :| 0 <= i < |findings| && findings[i].id == id;
    assert more[i].id == id;
  }

  // ----- assertToolConformance

  function Texts(s: seq<string>): (r: seq<Value>)
    ensures |r| == |s| && forall i | 0 <= i < |s| :: r[i] == Str(s[i])
  {
    if s == [] then [] else [Str(s[0])] + Texts(s[1..])
  }

  function IsExpected(): Finding -> bool {
    (f: Finding) => f.expected
  }

  /** Whether `assertToolConformance` returns rather than throws. */
  predicate Conforms(tool: string, ledger: seq<string>, gathered: seq<Finding>) {
    var findings := Closed(tool, ledger, ledger, gathered);
    var actual := Sort(Ids(Filtered(findings, IsExpected())), StrLe);
    && AllExpected(findings)
    && Canonical(Arr(Texts(Sort(ledger, StrLe)))) == Canonical(Arr(Texts(actual)))
  }

  lemma TextsPrintAlikeIff(a: seq<string>, b: seq<string>)
    ensures Canonical(Arr(Texts(a))) == Canonical(Arr(Texts(b))) <==> a == b
  {
    PrintsAlikeIff(Arr(Texts(a)), Arr(Texts(b)));
    if Same(Arr(Texts(a)), Arr(Texts(b))) {
      forall i | 0 <= i < |a| ensures a[i] == b[i] { assert Same(Texts(a)[i], Texts(b)[i]); }
    }
  }

  /** Whatever the loop adds is the drift id of an id that was not observed. */
  lemma {:induction false} ClosedAdds(tool: string, ledger: seq<string>, rest: seq<string>, findings: seq<Finding>,
      id: string)
    requires Seen(Closed(tool, ledger, rest, findings), id) && !Seen(findings, id)
    ensures exists u | u in rest :: !Seen(findings, u) && id == DriftId(tool, u)
    decreases |rest|
  {
    hide DriftId;
    if rest != [] {
      var next := if Seen(findings, rest[0]) then findings else findings + [Drift(tool, ledger, rest[0])];
      if Seen(next, id) {
        var i :| 0 <= i < |next| && next[i].id == id;
        assert i == |findings| && rest[0] in rest;
      } else {
        ClosedAdds(tool, ledger, rest[1..], next, id);
        var u :| u in rest[1..] && !Seen(next, u) && id == DriftId(tool, u);
        if Seen(findings, u) { SeenMore(findings, next, u); }
        assert u in rest;
      }
    }
  }

  /** If all of the ledger is among the ids after the loop, all of it was
      observed before: a drift id is longer than the id it is about, so no chain
      of listed drift ids can start. */
  lemma {:induction false} AllObserved(tool: string, ledger: seq<string>, gathered: seq<Finding>, id: string)
    requires forall x | x in ledger :: Seen(Closed(tool, ledger, ledger, gathered), x)
    requires id in ledger
    ensures Seen(gathered, id)
    decreases |id|
  {
    if !Seen(gathered, id) {
      ClosedAdds(tool, ledger, ledger, gathered, id);
      var u :| u in ledger && !Seen(gathered, u) && id == DriftId(tool, u);
      assert |u| < |id|;
      AllObserved(tool, ledger, gathered, u);
    }
  }

  /** `assertToolConformance` passes exactly when the observed ids are the ledger,
      each as often as it is listed. */
  lemma ConformsIff(tool: string, ledger: seq<string>, gathered: seq<Finding>)
    requires Flagged(gathered, ledger)
    ensures Conforms(tool, ledger, gathered) <==> multiset(Ids(gathered)) == multiset(ledger)
  {
    hide Canonical, Sort, StrLe, Filtered, DriftId;
    var findings := Closed(tool, ledger, ledger, gathered);
    StrOrder();
    if AllExpected(findings) {
      KeepExpected(findings);
      TextsPrintAlikeIff(Sort(ledger, StrLe), Sort(Ids(findings), StrLe));
      SortEqualIff(ledger, Ids(findings), StrLe);
    }
    if Conforms(tool, ledger, gathered) || multiset(Ids(gathered)) == multiset(ledger) {
      ConformsSeen(tool, ledger, gathered);
      ClosedSame(tool, ledger, ledger, gathered);
      FlaggedExpected(gathered, ledger);
    }
  }

  lemma ConformsSeen(tool: string, ledger: seq<string>, gathered: seq<Finding>)
    requires multiset(Ids(gathered)) == multiset(ledger)
        || multiset(Ids(Closed(tool, ledger, ledger, gathered))) == multiset(ledger)
    ensures forall id | id in ledger :: Seen(gathered, id)
  {
    var findings := if multiset(Ids(gathered)) == multiset(ledger) then gathered
        else Closed(tool, ledger, ledger, gathered);
    forall id | id in ledger
      ensures Seen(findings, id)
    {
      assert id in multiset(ledger) && id in multiset(Ids(findings));
      SeenIff(findings, id);
    }
    if findings != gathered {
      forall id | id in ledger ensures Seen(gathered, id) { AllObserved(tool, ledger, gathered, id); }
    }
  }

  lemma FlaggedExpected(findings: seq<Finding>, ledger: seq<string>)
    requires Flagged(findings, ledger)
    ensures multiset(Ids(findings)) == multiset(ledger) ==> AllExpected(findings)
  {
    if multiset(Ids(findings)) == multiset(ledger) {
      forall i | 0 <= i < |findings|
        ensures findings[i].expected
      {
        assert findings[i] in findings && Ids(findings)[i] in multiset(Ids(findings));
      }
    }
  }

  lemma KeepExpected(findings: seq<Finding>)
    requires AllExpected(findings)
    ensures Filtered(findings, IsExpected()) == findings
  {
    forall f | f in findings ensures IsExpected()(f) { var i :| 0 <= i < |findings| && findings[i] == f; }
    FilteredAll(findings, IsExpected());
  }

  /** After the loop every listed id is among the findings, or a finding says that it
      was not observed, under an id of its own. */
  lemma ResolvedReported(tool: string, ledger: seq<string>, gathered: seq<Finding>, id: string)
    requires id in ledger
    ensures var findings := Closed(tool, ledger, ledger, gathered);
            id in Ids(findings)
            || exists f | f in findings ::
                 f.id == tool + ".expected-drift-resolved." + id && (f.expected <==> f.id in ledger)
  {
    var findings := Closed(tool, ledger, ledger, gathered);
    SeenIff(findings, id);
    if !Seen(findings, id) {
      ClosedCovers(tool, ledger, ledger, gathered, id);
      assert Drift(tool, ledger, id) in findings;
    }
  }

  lemma {:induction false} ClosedCovers(
      tool: string, ledger: seq<string>, rest: seq<string>, findings: seq<Finding>, id: string)
    requires id in rest
    ensures var closed := Closed(tool, ledger, rest, findings);
            findings <= closed && (Seen(closed, id) || Drift(tool, ledger, id) in closed)
    decreases |rest|
  {
    hide Drift;
    var next := if Seen(findings, rest[0]) then findings else findings + [Drift(tool, ledger, rest[0])];
    var closed := Closed(tool, ledger, rest, findings);
    ClosedGrows(tool, ledger, rest[1..], next);
    if id == rest[0] {
      if Seen(findings, id) { SeenMore(findings, closed, id); } else { assert next[|findings|] in closed; }
    } else {
      ClosedCovers(tool, ledger, rest[1..], next, id);
    }
  }

  lemma {:induction false} ClosedGrows(tool: string, ledger: seq<string>, rest: seq<string>, findings: seq<Finding>)
    ensures findings <= Closed(tool, ledger, rest, findings)
    decreases |rest|
  {
    hide Drift;
    if rest != [] {
      ClosedGrows(tool, ledger, rest[1..],
        if Seen(findings, rest[0]) then findings else findings + [Drift(tool, ledger, rest[0])]);
    }
  }
}
