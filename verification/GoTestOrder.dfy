/** The order of the cases that packages/test-evidence/src/go-json-parser.ts
    returns, which compares names only. */
module GoTestOrder {
  import opened Sorting
  import opened Json
  import opened Records
  import opened GoTest
  import opened GoTestFacts

  lemma {:induction false} FirstSeen(lines: seq<Line>)
    requires lines != [] && IsTest(lines[0])
    ensures KeysSeen(lines) != [] && KeysSeen(lines)[0] == Key(lines[0])
  {
    var n := |lines| - 1;
    if n > 0 {
      assert lines[..n][0] == lines[0];
      FirstSeen(lines[..n]);
    } else {
      assert lines[..0] == [];
    }
  }

  /** A case whose test comes first in the stream comes first before sorting. */
  lemma FirstCase(lines: seq<Line>)
    requires lines != [] && IsTest(lines[0]) && Key(lines[0]) in Kept(lines)
    ensures CasesOf(lines, Kept(lines)) != []
    ensures CasesOf(lines, Kept(lines))[0] == CaseOf(lines, Key(lines[0]))
  {
    hide CaseOf, IsTest, Key, KeysSeen, IsParent;
    FirstSeen(lines);
    KeptMean(lines);
    var keys := KeysSeen(lines);
    assert keys == [keys[0]] + keys[1..];
    FilteredCons(keys[0], keys[1..], NoParent(lines));
    CasesLength(lines, Kept(lines));
  }

  lemma FrontedStart(lines: seq<Line>, m: Line)
    requires m in lines && IsTest(m)
    ensures var b := Fronted(lines, Package(m), TestName(m));
            b != [] && IsTest(b[0]) && Key(b[0]) == Key(m)
  {
    FilteredMembers(lines, OfPair(Package(m), TestName(m)));
    var mine := Filtered(lines, OfPair(Package(m), TestName(m)));
    assert m in mine && mine[0] in mine;
  }

  /** The order in which tests are interleaved makes no difference to the list. */
  ghost predicate ListFixed(lines: seq<Line>, nameLe: (string, string) -> bool) {
    forall b | SameByPair(lines, b) :: Results(lines, nameLe) == Results(b, nameLe)
  }

  /** If the interleaving makes no difference, every case is the first of those its
      name ties with: its lines could all have come first. */
  lemma FirstOfTies(lines: seq<Line>, nameLe: (string, string) -> bool, key: string)
    requires TotalPreorder(nameLe) && KeysApart(lines) && ListFixed(lines, nameLe) && key in Kept(lines)
    ensures var ties := Filtered(Results(lines, nameLe), Tied(CaseOf(lines, key), CaseLe(nameLe)));
            ties != [] && ties[0] == CaseOf(lines, key)
  {
    hide Kept, CaseOf, Own, IsTest, Key, SameByPair, KeysApart, TotalPreorder, Fronted, Filtered;
    KeptMean(lines);
    var m := FirstOwn(lines, key);
    var b := Fronted(lines, Package(m), TestName(m));
    FrontedByPair(lines, Package(m), TestName(m));
    FrontedStart(lines, m);
    KeptByPair(lines, b, key);
    FirstCase(b);
    SameCase(lines, b, key);
    CaseLeTotal(nameLe);
    FirstTied(CasesOf(b, Kept(b)), CaseLe(nameLe));
    assert Results(lines, nameLe) == Results(b, nameLe);
  }

  lemma SameCase(a: seq<Line>, b: seq<Line>, key: string)
    requires SameByPair(a, b) && KeysApart(a) && key in Kept(a)
    ensures CaseOf(a, key) == CaseOf(b, key)
  {
    hide Kept, Own, KeysApart, SameByPair;
    OwnByPair(a, b, key);
  }

  lemma FirstOwn(lines: seq<Line>, key: string) returns (m: Line)
    requires Own(lines, key) != []
    ensures m in lines && IsTest(m) && Key(m) == key
  {
    FilteredMembers(lines, OfKey(key));
    m := Own(lines, key)[0];
    assert m in Own(lines, key);
  }

  lemma FirstTied<T(!new)>(s: seq<T>, le: (T, T) -> bool)
    requires TotalPreorder(le) && s != []
    ensures var ties := Filtered(Sort(s, le), Tied(s[0], le));
            ties != [] && ties[0] == s[0]
  {
    SortStable(s, s[0], le);
    assert s == [s[0]] + s[1..];
    FilteredCons(s[0], s[1..], Tied(s[0], le));
  }

  lemma TiedAlike<T(!new)>(s: seq<T>, x: T, y: T, le: (T, T) -> bool)
    requires TotalPreorder(le) && le(x, y) && le(y, x)
    ensures Filtered(s, Tied(x, le)) == Filtered(s, Tied(y, le))
  {
    FilteredAgree(s, Tied(x, le), Tied(y, le));
  }

  /** The interleaving of tests makes no difference to the list of cases exactly
      when no two tests share the key of a case and no two cases have names that
      compare equal. */
  lemma ListFixedIff(lines: seq<Line>, nameLe: (string, string) -> bool)
    requires TotalPreorder(nameLe)
    ensures ListFixed(lines, nameLe) <==> KeysApart(lines) && Untied(Results(lines, nameLe), CaseLe(nameLe))
  {
    hide Results, Kept, CaseOf, SameByPair, KeysApart, TotalPreorder, Untied;
    TestsInterleaveIff(lines, nameLe);
    if ListFixed(lines, nameLe) {
      AllFirst(lines, nameLe);
    } else if KeysApart(lines) && Untied(Results(lines, nameLe), CaseLe(nameLe)) {
      forall b | SameByPair(lines, b)
        ensures Results(lines, nameLe) == Results(b, nameLe)
      {
        ApartSameCases(lines, b, nameLe);
      }
    }
  }

  lemma AllFirst(lines: seq<Line>, nameLe: (string, string) -> bool)
    requires TotalPreorder(nameLe) && KeysApart(lines) && ListFixed(lines, nameLe)
    ensures Untied(Results(lines, nameLe), CaseLe(nameLe))
  {
    hide Results, Kept, CaseOf, SameByPair, KeysApart, TotalPreorder, ListFixed;
    var r, le := Results(lines, nameLe), CaseLe(nameLe);
    CaseLeTotal(nameLe);
    forall x, y | x in r && y in r && le(x, y) && le(y, x)
      ensures x == y
    {
      assert x in multiset(r) && y in multiset(r);
      ResultsMembers(lines, nameLe, x);
      ResultsMembers(lines, nameLe, y);
      var kx :| kx in Kept(lines) && x == CaseOf(lines, kx);
      var ky :| ky in Kept(lines) && y == CaseOf(lines, ky);
      FirstOfTies(lines, nameLe, kx);
      FirstOfTies(lines, nameLe, ky);
      TiedAlike(r, x, y, le);
    }
  }

  // ----- inputs

  lemma TwoKeys(l: Line, m: Line)
    requires IsTest(l) && IsTest(m) && Key(l) != Key(m) && !IsSubtest(l) && !IsSubtest(m)
    ensures Kept([l, m]) == [Key(l), Key(m)]
  {
    hide Key, IsTest, IsSubtest;
    var a := [l, m];
    assert [] + [l] == [l] && a == [l] + [m];
    KeysMore([], l);
    KeysMore([l], m);
    assert KeysSeen(a) == [Key(l), Key(m)];
    assert !IsParent(a, Key(l)) && !IsParent(a, Key(m));
    FilteredTwo(Key(l), Key(m), NoParent(a));
  }

  lemma TwoCases(l: Line, m: Line, nameLe: (string, string) -> bool)
    requires IsTest(l) && IsTest(m) && Key(l) != Key(m) && !IsSubtest(l) && !IsSubtest(m)
    requires TestName(l) == TestName(m) && nameLe(TestName(l), TestName(m))
    ensures |Results([l, m], nameLe)| == 2 && Results([l, m], nameLe)[0].file == Package(l)
  {
    hide Key, IsTest, IsSubtest, CaseOf, Own, CasesOf;
    var a := [l, m];
    TwoKeys(l, m);
    TwoOwn(l, m);
    TwoOwn(m, l);
    CaseNamed(a, Key(l));
    CaseNamed(a, Key(m));
    CasesLength(a, [Key(l), Key(m)]);
    var x, y := CaseOf(a, Key(l)), CaseOf(a, Key(m));
    assert CasesOf(a, [Key(l), Key(m)]) == [x, y];
    assert [x, y][1..] == [y] && [y][1..] == [];
    assert Sort([y], CaseLe(nameLe)) == [y];
    assert Sort([x, y], CaseLe(nameLe)) == [x, y];
  }

  lemma TwoOwn(l: Line, m: Line)
    requires IsTest(l) && IsTest(m) && Key(l) != Key(m)
    ensures Own([l, m], Key(l)) == [l] && Own([m, l], Key(l)) == [l]
  {
    FilteredTwo(l, m, OfKey(Key(l)));
    FilteredTwo(m, l, OfKey(Key(l)));
  }

  /** Two packages with a test of the same name: the case of the test that came
      first is first. */
  lemma SameNameTwice(nameLe: (string, string) -> bool) returns (a: seq<Line>, b: seq<Line>)
    requires TotalPreorder(nameLe)
    ensures SameByPair(a, b) && KeysApart(a)
    ensures |Results(a, nameLe)| == 2 && |Results(b, nameLe)| == 2
    ensures Results(a, nameLe)[0].file == "p" && Results(b, nameLe)[0].file == "q"
  {
    var l := Decoded(Pass, Some("p"), Some("T"), None, None);
    var m := Decoded(Pass, Some("q"), Some("T"), None, None);
    a, b := [l, m], [m, l];
    assert Key(l)[0] == 'p' && Key(m)[0] == 'q';
    assert nameLe("T", "T");
    forall pkg, test
      ensures Filtered(a, OfPair(pkg, test)) == Filtered(b, OfPair(pkg, test))
    {
      FilteredTwo(l, m, OfPair(pkg, test));
      FilteredTwo(m, l, OfPair(pkg, test));
      assert Package(l)[0] != Package(m)[0];
    }
    NoColonsApart(a);
    TwoCases(l, m, nameLe);
    TwoCases(m, l, nameLe);
  }

  /** The tests A, A/B and A/B/C: A/B is emitted although it has a subtest. */
  lemma NestedEmitted() returns (lines: seq<Line>, l: Line)
    ensures l in lines && IsTest(l) && HasSubtests(lines, l) && Key(l) in Kept(lines)
  {
    l := Decoded(Pass, Some("p"), Some("A/B"), None, None);
    var m := Decoded(Pass, Some("p"), Some("A/B/C"), None, None);
    lines := [Decoded(Pass, Some("p"), Some("A"), None, None), l, m];
    assert m in lines && Below(TestName(l), TestName(m));
    assert TestName(l)[1] == '/';
    NoColonsNotAliased(lines, l);
    EmittedIff(lines, l);
  }
}
