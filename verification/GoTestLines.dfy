/** What single lines of `go test -json` do to a case and to the build errors, in the
    terms of packages/test-evidence/src/go-json-parser.ts. */
module GoTestLines {
  import opened Sorting
  import opened Json
  import opened GoTest
  import opened GoTestFacts

  /** A line that is not the end of a test. */
  predicate Runs(l: Line) {
    l.Decoded? ==> l.action == Output || l.action == OtherAction
  }

  lemma {:induction false} StatusAfter(own: seq<Line>, l: Line, rest: seq<Line>)
    requires Terminal(l) && forall r | r in rest :: Runs(r)
    ensures StatusOf(own + [l] + rest) == StatusFromAction(l.action)
  {
    if rest == [] {
      assert own + [l] + rest == own + [l];
      SaysMore(own, l);
    } else {
      var n := |rest| - 1;
      assert own + [l] + rest == (own + [l] + rest[..n]) + [rest[n]];
      assert rest[n] in rest;
      StatusAfter(own, l, rest[..n]);
      SaysMore(own + [l] + rest[..n], rest[n]);
    }
  }

  /** A case has passed, failed or been skipped as the last line that says so has it,
      whatever comes before and whatever else comes after. */
  lemma LastWord(own: seq<Line>, l: Line, rest: seq<Line>)
    requires l.Decoded? && (l.action == Pass || l.action == Fail || l.action == Skip) && forall r | r in rest :: Runs(r)
    ensures var status := Emitted(Gathered(own + [l] + rest)).status;
            && (l.action == Pass ==> status == Passed)
            && (l.action == Fail ==> status == Failed)
            && (l.action == Skip ==> status == Skipped)
  {
    StatusAfter(own, l, rest);
  }

  lemma {:induction false} NoWordStatus(own: seq<Line>)
    requires forall r | r in own :: Runs(r)
    ensures StatusOf(own) == None && MillisOf(own) == 0
  {
    if own != [] {
      var n := |own| - 1;
      assert own == own[..n] + [own[n]] && own[n] in own;
      NoWordStatus(own[..n]);
      SaysMore(own[..n], own[n]);
    }
  }

  lemma NoWord(own: seq<Line>)
    requires forall r | r in own :: Runs(r)
    ensures Emitted(Gathered(own)).status == Skipped && Emitted(Gathered(own)).durationMs == 0
  {
    NoWordStatus(own);
  }

  lemma {:induction false} MillisAfter(own: seq<Line>, l: Line, rest: seq<Line>)
    requires Timed(l) && forall r | r in rest :: Runs(r) || r.elapsed.None?
    ensures MillisOf(own + [l] + rest) == Millis(l.elapsed.value)
  {
    hide Millis;
    if rest == [] {
      assert own + [l] + rest == own + [l];
      SaysMore(own, l);
    } else {
      var n := |rest| - 1;
      assert own + [l] + rest == (own + [l] + rest[..n]) + [rest[n]];
      assert rest[n] in rest;
      MillisAfter(own, l, rest[..n]);
      SaysMore(own + [l] + rest[..n], rest[n]);
    }
  }

  /** The duration is the elapsed seconds of the last such line that has them, times
      1000 and rounded to the nearest whole number; negative ones count as none. */
  lemma LastTime(own: seq<Line>, l: Line, rest: seq<Line>)
    requires l.Decoded? && (l.action == Pass || l.action == Fail || l.action == Skip) && l.elapsed.Some?
    requires forall r | r in rest :: Runs(r) || r.elapsed.None?
    ensures var ms, seconds := Emitted(Gathered(own + [l] + rest)).durationMs as real, l.elapsed.value;
            && (seconds >= 0.0 ==> ms - 0.5 <= 1000.0 * seconds < ms + 0.5)
            && (seconds < 0.0 ==> ms == 0.0)
  {
    MillisAfter(own, l, rest);
  }

  /** What a test prints is kept piece by piece, in order. */
  lemma OutputAdded(own: seq<Line>, l: Line)
    ensures OutputsOf([]) == []
    ensures l.Decoded? && l.action == Output && l.output.Some? ==>
              OutputsOf(own + [l]) == OutputsOf(own) + [l.output.value]
    ensures !(l.Decoded? && l.action == Output && l.output.Some?) ==> OutputsOf(own + [l]) == OutputsOf(own)
  {
    SaysMore(own, l);
  }

  /** Of these pieces the last twenty at most are joined. */
  lemma TailMeans(parts: seq<string>) returns (front: seq<string>)
    ensures parts == front + Last(parts, 20) && |Last(parts, 20)| <= 20 && (|parts| >= 20 ==> |Last(parts, 20)| == 20)
  {
    front := parts[..|parts| - |Last(parts, 20)|];
  }

  lemma JoinedMeans(first: string, parts: seq<string>)
    ensures Joined([]) == "" && Joined([first] + parts) == first + Joined(parts)
  {
    assert ([first] + parts)[1..] == parts;
  }

  // ----- build errors

  /** A line that does not parse is reported with its first 200 characters. */
  lemma MalformedReported(before: seq<Line>, text: string)
    ensures BuildErrors(before + [Malformed(text)])
         == BuildErrors(before) + [MalformedLine(if |text| <= 200 then text else text[..200])]
  {
    BuildErrorsMore(before, Malformed(text));
  }

  /** So are a failed package and its output that reports a failure; nothing else
      is, and no line of a test. */
  lemma PackageLines(before: seq<Line>, pkg: string, l: Line)
    requires l.Decoded? && l.pkg == Some(pkg) && (l.test == None || l.test == Some(""))
    ensures l.action == Fail ==> BuildErrors(before + [l]) == BuildErrors(before) + [PackageFailed(pkg)]
    ensures l.action == Output && l.output.Some? && ReportsFailure(Trim(l.output.value)) ==>
              BuildErrors(before + [l]) == BuildErrors(before) + [BuildOutput(Trim(l.output.value))]
    ensures l.action != Fail && !(l.action == Output && l.output.Some? && ReportsFailure(Trim(l.output.value))) ==>
              BuildErrors(before + [l]) == BuildErrors(before)
  {
    hide ReportsFailure, Trim;
    BuildErrorsMore(before, l);
  }

  lemma OtherLines(before: seq<Line>, l: Line)
    requires l.Blank? || (l.Decoded? && (l.pkg == None || (l.test.Some? && l.test.value != "")))
    ensures BuildErrors(before + [l]) == BuildErrors(before)
  {
    BuildErrorsMore(before, l);
  }

  /** Output reports a failure if it starts with FAIL and white space or says that a
      build failed. */
  lemma FailureText(c: char, a: string, b: string)
    ensures Space(c) ==> ReportsFailure("FAIL" + [c] + a)
    ensures ReportsFailure(a + "[build failed]" + b)
  {
    var first := "FAIL" + [c] + a;
    assert first[..4] == "FAIL" && first[4] == c;
    var second := a + "[build failed]" + b;
    assert second[|a|..|a| + 14] == "[build failed]" && |BUILD_FAILED| == 14;
    assert At(second, |a|, BUILD_FAILED);
  }

  lemma FailureTextOnly(out: string) returns (a: string, b: string)
    requires ReportsFailure(out)
    ensures (|out| > 4 && out[..4] == "FAIL" && Space(out[4])) || out == a + "[build failed]" + b
  {
    a, b := "", "";
    if !(|out| > 4 && out[..4] == "FAIL" && Space(out[4])) {
      var i :| 0 <= i <= |out| - |BUILD_FAILED| && At(out, i, BUILD_FAILED);
      a, b := out[..i], out[i + 14..];
      assert out == out[..i] + out[i..i + 14] + out[i + 14..];
    }
  }
}
