/** What the parser of packages/test-evidence/src/go-json-parser.ts guarantees
    about a stream in which the lines of many tests are interleaved. */
module GoTestFacts {
  import opened Sorting
  import opened Json
  import opened Records
  import opened GoTest

  // ----- what one case says

  /** A case carries the status of its last terminal line, and is skipped when
      there is none. */
  lemma {:induction false} StatusMeans(own: seq<Line>)
    ensures forall i | 0 <= i < |own| && Terminal(own[i]) && (forall j | i < j < |own| :: !Terminal(own[j])) ::
              StatusOf(own) == StatusFromAction(own[i].action)
    ensures (forall l | l in own :: !Terminal(l)) ==> Emitted(Gathered(own)).status == Skipped
  {
    if own != [] {
      var n := |own| - 1;
      StatusMeans(own[..n]);
      assert own == own[..n] + [own[n]];
      if Terminal(own[n]) { assert own[n] in own; }
    }
  }

  /** Its duration is that of the last terminal line that has one. */
  lemma {:induction false} MillisMeans(own: seq<Line>)
    ensures forall i | 0 <= i < |own| && Timed(own[i]) && (forall j | i < j < |own| :: !Timed(own[j])) ::
              MillisOf(own) == Millis(own[i].elapsed.value)
    ensures (forall l | l in own :: !Timed(l)) ==> MillisOf(own) == 0
  {
    if own != [] {
      var n := |own| - 1;
      MillisMeans(own[..n]);
      assert own == own[..n] + [own[n]];
      if Timed(own[n]) { assert own[n] in own; }
    }
  }

  predicate Blank(s: string) {
    forall i | 0 <= i < |s| :: Space(s[i])
  }

  lemma {:induction false} TrimStartMeans(s: string) returns (left: string)
    ensures s == left + TrimStart(s) && Blank(left) && (TrimStart(s) != "" ==> !Space(TrimStart(s)[0]))
  {
    hide Space;
    left := "";
    if s != "" && Space(s[0]) {
      left := TrimStartMeans(s[1..]);
      left := [s[0]] + left;
    }
  }

  lemma {:induction false} TrimEndMeans(s: string) returns (right: string)
    ensures s == TrimEnd(s) + right && Blank(right) && (TrimEnd(s) != "" ==> !Space(TrimEnd(s)[|TrimEnd(s)| - 1]))
  {
    hide Space;
    right := "";
    if s != "" && Space(s[|s| - 1]) {
      right := TrimEndMeans(s[..|s| - 1]);
      right := right + [s[|s| - 1]];
    }
  }

  /** A case carries a message exactly when it failed and its last twenty pieces
      of output are not all white space.  The message starts at the first
      character that is none, and stops after 4000 characters or with the last
      one that is none. */
  lemma MessageMeans(own: seq<Line>) returns (left: string, right: string)
    ensures var c, text := Emitted(Gathered(own)), Joined(Last(OutputsOf(own), 20));
            && (c.errorMessage.Some? <==> c.status == Failed && !Blank(text))
            && (c.errorMessage.Some? ==>
                  && Blank(left) && text == left + c.errorMessage.value + right
                  && c.errorMessage.value != "" && !Space(c.errorMessage.value[0])
                  && (|c.errorMessage.value| < 4000 ==>
                      Blank(right) && !Space(c.errorMessage.value[|c.errorMessage.value| - 1]))
                  && |c.errorMessage.value| <= 4000)
  {
    hide Space, OutputsOf, Joined, Last, StatusOf, MillisOf;
    var text := Joined(Last(OutputsOf(own), 20));
    left := TrimStartMeans(text);
    var started := TrimStart(text);
    var rest := TrimEndMeans(started);
    var tail := TrimEnd(started);
    assert text == left + tail + rest;
    if tail == "" {
      assert text == left + rest;
      right := rest;
    } else {
      assert tail[0] == started[0] && text[|left|] == tail[0];
      right := tail[|Slice(tail, 4000)|..] + rest;
      assert text == left + Slice(tail, 4000) + right;
    }
  }

  // ----- one case per key

  lemma DistinctTail(keys: seq<string>)
    requires Distinct(keys) && keys != []
    ensures Distinct(keys[1..]) && keys[0] !in keys[1..]
  {
    forall i, j | 0 <= i < j < |keys[1..]|
      ensures keys[1..][i] != keys[1..][j]
    {
      assert keys[i + 1] != keys[j + 1];
    }
  }

  lemma {:induction false} DistinctFiltered(keys: seq<string>, keep: string -> bool)
    requires Distinct(keys)
    ensures Distinct(Filtered(keys, keep))
  {
    if keys != [] {
      DistinctTail(keys);
      DistinctFiltered(keys[1..], keep);
      FilteredMembers(keys[1..], keep);
      var f := Filtered(keys[1..], keep);
      assert keys[0] !in f;
      assert forall j | 0 <= j < |f| :: f[j] in f;
    }
  }

  lemma KeptMean(lines: seq<Line>)
    ensures Distinct(Kept(lines))
    ensures forall key :: key in Kept(lines) <==> Own(lines, key) != [] && !IsParent(lines, key)
  {
    KeysMean(lines);
    DistinctFiltered(KeysSeen(lines), NoParent(lines));
    FilteredMembers(KeysSeen(lines), NoParent(lines));
  }

  lemma {:induction false} CasesLength(lines: seq<Line>, keys: seq<string>)
    ensures |CasesOf(lines, keys)| == |keys|
    ensures forall i | 0 <= i < |keys| :: CasesOf(lines, keys)[i] == CaseOf(lines, keys[i])
  {
    hide CaseOf;
    if keys != [] { CasesLength(lines, keys[..|keys| - 1]); }
  }

  lemma CaseLeTotal(nameLe: (string, string) -> bool)
    requires TotalPreorder(nameLe)
    ensures TotalPreorder(CaseLe(nameLe))
  {
    var le := CaseLe(nameLe);
    forall x, y
      ensures le(x, y) || le(y, x)
    {
      assert nameLe(x.name, y.name) || nameLe(y.name, x.name);
    }
    forall x, y, z | le(x, y) && le(y, z)
      ensures le(x, z)
    {
      assert nameLe(x.name, y.name) && nameLe(y.name, z.name);
    }
  }

  /** Each key that has lines and is no parent yields exactly one case, built
      from its own lines alone; there are no others; and the list is in order of
      name. */
  lemma OneCasePerKey(lines: seq<Line>, nameLe: (string, string) -> bool) returns (keys: seq<string>)
    requires TotalPreorder(nameLe)
    ensures Distinct(keys)
    ensures forall key :: key in keys <==> Own(lines, key) != [] && !IsParent(lines, key)
    ensures |Results(lines, nameLe)| == |keys|
    ensures multiset(Results(lines, nameLe))
        == multiset(seq(|keys|, i requires 0 <= i < |keys| => CaseOf(lines, keys[i])))
    ensures forall i, j | 0 <= i < j < |keys| :: nameLe(Results(lines, nameLe)[i].name, Results(lines, nameLe)[j].name)
  {
    keys := Kept(lines);
    KeptMean(lines);
    CasesLength(lines, keys);
    CaseLeTotal(nameLe);
    var cases := CasesOf(lines, keys);
    SortMultiset(cases, CaseLe(nameLe));
    SortSorted(cases, CaseLe(nameLe));
    assert cases == seq(|keys|, i requires 0 <= i < |keys| => CaseOf(lines, keys[i]));
    var r := Results(lines, nameLe);
    forall i, j | 0 <= i < j < |keys|
      ensures nameLe(r[i].name, r[j].name)
    {
      assert CaseLe(nameLe)(r[i], r[j]);
    }
  }

  // ----- interleaving

  /** The same lines key by key, in whatever order the keys are interleaved. */
  ghost predicate SameByKey(a: seq<Line>, b: seq<Line>) {
    forall key :: Own(a, key) == Own(b, key)
  }

  lemma ParentsByKey(a: seq<Line>, b: seq<Line>, key: string)
    requires SameByKey(a, b) && IsParent(a, key)
    ensures IsParent(b, key)
  {
    var l :| l in a && IsSubtest(l) && ParentKey(l) == key;
    FilteredMembers(a, OfKey(Key(l)));
    FilteredMembers(b, OfKey(Key(l)));
    assert l in Own(a, Key(l)) && Own(a, Key(l)) == Own(b, Key(l));
  }

  lemma {:induction false} CasesSplit(lines: seq<Line>, x: seq<string>, y: seq<string>)
    ensures CasesOf(lines, x + y) == CasesOf(lines, x) + CasesOf(lines, y)
  {
    hide CaseOf;
    if y == [] {
      assert x + y == x;
    } else {
      var n := |y| - 1;
      CasesSplit(lines, x, y[..n]);
      assert (x + y)[..|x + y| - 1] == x + y[..n];
    }
  }

  lemma CasesOne(lines: seq<Line>, key: string)
    ensures CasesOf(lines, [key]) == [CaseOf(lines, key)]
  {
    hide CaseOf;
    assert [key][..0] == [];
  }

  lemma {:induction false} CasesShuffled(a: seq<Line>, b: seq<Line>, x: seq<string>, y: seq<string>)
    requires Distinct(x) && Distinct(y) && (forall key :: key in x <==> key in y)
    requires forall key | key in x :: CaseOf(a, key) == CaseOf(b, key)
    ensures multiset(CasesOf(a, x)) == multiset(CasesOf(b, y))
  {
    hide CasesOf, CaseOf;
    if x == [] {
      assert forall key :: key !in multiset(y) by { assert forall key :: key in multiset(y) <==> key in y; }
      assert multiset(y) == multiset{};
      assert |y| == |multiset(y)|;
      CasesLength(a, []);
      CasesLength(b, []);
      assert CasesOf(a, x) == [] && CasesOf(b, y) == [];
    } else {
      var h := x[0];
      assert h in y;
      var i :| 0 <= i < |y| && y[i] == h;
      var rest := y[..i] + y[i + 1..];
      DistinctTail(x);
      Without(y, i);
      assert x == [h] + x[1..];
      forall key
        ensures key in x[1..] <==> key in rest
      {
        assert key in x <==> key == h || key in x[1..];
      }
      CasesShuffled(a, b, x[1..], rest);
      CasesSplit(a, [h], x[1..]);
      CasesSplit(b, y[..i], [h] + y[i + 1..]);
      CasesSplit(b, [h], y[i + 1..]);
      CasesSplit(b, y[..i], y[i + 1..]);
      CasesOne(a, h);
      CasesOne(b, h);
      assert y == y[..i] + ([h] + y[i + 1..]);
      assert CaseOf(a, h) == CaseOf(b, h);
    }
  }

  lemma Without(y: seq<string>, i: nat)
    requires Distinct(y) && i < |y|
    ensures Distinct(y[..i] + y[i + 1..])
    ensures forall key :: key in y[..i] + y[i + 1..] <==> key in y && key != y[i]
  {
    var rest := y[..i] + y[i + 1..];
    forall j | 0 <= j < |rest|
      ensures rest[j] == y[if j < i then j else j + 1]
    {
    }
    forall key | key in y && key != y[i]
      ensures key in rest
    {
      var j :| 0 <= j < |y| && y[j] == key;
      assert rest[if j < i then j else j - 1] == key;
    }
    forall key | key in rest
      ensures key in y && key != y[i]
    {
      var j :| 0 <= j < |rest| && rest[j] == key;
    }
  }

  lemma SameCases(a: seq<Line>, b: seq<Line>, nameLe: (string, string) -> bool)
    requires forall key :: key in Kept(a) <==> key in Kept(b)
    requires forall key | key in Kept(a) :: CaseOf(a, key) == CaseOf(b, key)
    ensures multiset(Results(a, nameLe)) == multiset(Results(b, nameLe))
    ensures TotalPreorder(nameLe) && Untied(Results(a, nameLe), CaseLe(nameLe)) ==>
        Results(a, nameLe) == Results(b, nameLe)
  {
    hide Kept, CaseOf, SortedBy, Untied, TotalPreorder;
    KeptMean(a);
    KeptMean(b);
    CasesShuffled(a, b, Kept(a), Kept(b));
    SortMultiset(CasesOf(a, Kept(a)), CaseLe(nameLe));
    SortMultiset(CasesOf(b, Kept(b)), CaseLe(nameLe));
    if TotalPreorder(nameLe) && Untied(Results(a, nameLe), CaseLe(nameLe)) {
      CaseLeTotal(nameLe);
      SortSorted(CasesOf(a, Kept(a)), CaseLe(nameLe));
      SortSorted(CasesOf(b, Kept(b)), CaseLe(nameLe));
      SortedOnce(Results(a, nameLe), Results(b, nameLe), CaseLe(nameLe));
    }
  }

  /** The cases depend only on each key's own lines: rearranging a stream without
      reordering the lines of any key gives the same multiset of cases, and the
      same list when no two cases compare equal by name. */
  lemma InterleavingIrrelevant(a: seq<Line>, b: seq<Line>, nameLe: (string, string) -> bool)
    requires SameByKey(a, b)
    ensures multiset(Results(a, nameLe)) == multiset(Results(b, nameLe))
    ensures |Results(a, nameLe)| == |Results(b, nameLe)|
    ensures TotalPreorder(nameLe) && Untied(Results(a, nameLe), CaseLe(nameLe)) ==>
        Results(a, nameLe) == Results(b, nameLe)
  {
    hide Results;
    KeptMean(a);
    KeptMean(b);
    forall key
      ensures IsParent(a, key) <==> IsParent(b, key)
    {
      if IsParent(a, key) { ParentsByKey(a, b, key); }
      if IsParent(b, key) { ParentsByKey(b, a, key); }
    }
    SameCases(a, b, nameLe);
    assert |Results(a, nameLe)| == |multiset(Results(a, nameLe))|;
    assert |Results(b, nameLe)| == |multiset(Results(b, nameLe))|;
  }

  // ----- keys and (package, test) pairs

  /** Go import paths contain no colon. */
  predicate NoColons(lines: seq<Line>) {
    forall l | l in lines :: ':' !in Package(l)
  }

  lemma {:induction false} KeyInjective(p: string, s: string, q: string, t: string)
    requires ':' !in p && ':' !in q && KeyOf(p, s) == KeyOf(q, t)
    ensures p == q && s == t
  {
    var k := KeyOf(p, s);
    assert k[|p|] == ':' && k[|q|] == ':';
    assert forall i | 0 <= i < |p| :: p[i] in p && k[i] == p[i];
    assert forall i | 0 <= i < |q| :: q[i] in q && k[i] == q[i];
    assert |p| == |q|;
    assert p == KeyOf(p, s)[..|p|] == KeyOf(q, t)[..|q|] == q;
    assert s == KeyOf(p, s)[|p| + 2..] == KeyOf(q, t)[|q| + 2..] == t;
  }

  function OfPair(pkg: string, test: string): Line -> bool {
    l => IsTest(l) && Package(l) == pkg && TestName(l) == test
  }

  ghost predicate SameByPair(a: seq<Line>, b: seq<Line>) {
    forall pkg, test :: Filtered(a, OfPair(pkg, test)) == Filtered(b, OfPair(pkg, test))
  }

  lemma TestsByPair(a: seq<Line>, b: seq<Line>, l: Line)
    requires SameByPair(a, b) && IsTest(l)
    ensures l in a <==> l in b
  {
    var mine := OfPair(Package(l), TestName(l));
    FilteredMembers(a, mine);
    FilteredMembers(b, mine);
    assert l in Filtered(a, mine) <==> l in Filtered(b, mine);
  }

  /** Two tests share a key only if no case is emitted for it. */
  ghost predicate KeysApart(lines: seq<Line>) {
    forall l, m | l in lines && m in lines && IsTest(l) && IsTest(m) && Key(l) == Key(m) && Key(l) in Kept(lines) ::
      Package(l) == Package(m) && TestName(l) == TestName(m)
  }

  lemma KeptByPair(a: seq<Line>, b: seq<Line>, key: string)
    requires SameByPair(a, b)
    ensures key in Kept(a) <==> key in Kept(b)
  {
    hide Kept, SameByPair, IsTest, IsSubtest, Key, ParentKey;
    KeptMean(a);
    KeptMean(b);
    PairsSymmetric(a, b);
    if Own(a, key) != [] { SeenByPair(a, b, key); }
    if Own(b, key) != [] { SeenByPair(b, a, key); }
    if IsParent(a, key) { ParentByPair(a, b, key); }
    if IsParent(b, key) { ParentByPair(b, a, key); }
  }

  lemma PairsSymmetric(a: seq<Line>, b: seq<Line>)
    requires SameByPair(a, b)
    ensures SameByPair(b, a)
  {
  }

  lemma SeenByPair(a: seq<Line>, b: seq<Line>, key: string)
    requires SameByPair(a, b) && Own(a, key) != []
    ensures Own(b, key) != []
  {
    var l := Own(a, key)[0];
    assert l in Own(a, key);
    FilteredMembers(a, OfKey(key));
    FilteredMembers(b, OfKey(key));
    TestsByPair(a, b, l);
    assert l in Own(b, key);
  }

  lemma ParentByPair(a: seq<Line>, b: seq<Line>, key: string)
    requires SameByPair(a, b) && IsParent(a, key)
    ensures IsParent(b, key)
  {
    var l :| l in a && IsSubtest(l) && ParentKey(l) == key;
    TestsByPair(a, b, l);
  }

  /** The lines of a key that only one test has are that test's lines. */
  lemma OwnIsPair(lines: seq<Line>, l: Line)
    requires IsTest(l)
    requires forall m | m in lines && IsTest(m) && Key(m) == Key(l) ::
        Package(m) == Package(l) && TestName(m) == TestName(l)
    ensures Own(lines, Key(l)) == Filtered(lines, OfPair(Package(l), TestName(l)))
  {
    FilteredAgree(lines, OfKey(Key(l)), OfPair(Package(l), TestName(l)));
  }

  lemma OwnByPair(a: seq<Line>, b: seq<Line>, key: string)
    requires SameByPair(a, b) && KeysApart(a) && key in Kept(a)
    ensures Own(a, key) == Own(b, key)
  {
    KeptMean(a);
    FilteredMembers(a, OfKey(key));
    var l := Own(a, key)[0];
    assert l in Own(a, key);
    forall m | m in b && IsTest(m) && Key(m) == Key(l)
      ensures Package(m) == Package(l) && TestName(m) == TestName(l)
    {
      TestsByPair(a, b, m);
    }
    OwnIsPair(a, l);
    OwnIsPair(b, l);
    assert Filtered(a, OfPair(Package(l), TestName(l))) == Filtered(b, OfPair(Package(l), TestName(l)));
  }

  lemma ApartSameCases(a: seq<Line>, b: seq<Line>, nameLe: (string, string) -> bool)
    requires SameByPair(a, b) && KeysApart(a)
    ensures multiset(Results(a, nameLe)) == multiset(Results(b, nameLe))
    ensures TotalPreorder(nameLe) && Untied(Results(a, nameLe), CaseLe(nameLe)) ==>
        Results(a, nameLe) == Results(b, nameLe)
  {
    hide Results, Kept, Own, SameByPair, KeysApart, Untied, TotalPreorder;
    forall key
      ensures key in Kept(a) <==> key in Kept(b)
    {
      KeptByPair(a, b, key);
    }
    forall key | key in Kept(a)
      ensures CaseOf(a, key) == CaseOf(b, key)
    {
      OwnByPair(a, b, key);
    }
    SameCases(a, b, nameLe);
  }

  // ----- what a shared key does

  function Others(pkg: string, test: string): Line -> bool {
    l => !OfPair(pkg, test)(l)
  }

  /** The stream with the lines of one test moved to the front. */
  function Fronted(lines: seq<Line>, pkg: string, test: string): seq<Line> {
    Filtered(lines, OfPair(pkg, test)) + Filtered(lines, Others(pkg, test))
  }

  lemma FrontedByPair(lines: seq<Line>, pkg: string, test: string)
    ensures SameByPair(lines, Fronted(lines, pkg, test))
  {
    hide Filtered;
    var mine, others := Filtered(lines, OfPair(pkg, test)), Filtered(lines, Others(pkg, test));
    FilteredMembers(lines, OfPair(pkg, test));
    FilteredMembers(lines, Others(pkg, test));
    forall p, t
      ensures Filtered(lines, OfPair(p, t)) == Filtered(Fronted(lines, pkg, test), OfPair(p, t))
    {
      FilteredAppend(mine, others, OfPair(p, t));
      if p == pkg && t == test {
        FilteredAll(mine, OfPair(p, t));
        FilteredNone(others, OfPair(p, t));
        assert mine + [] == mine;
      } else {
        FilteredNone(mine, OfPair(p, t));
        FilteredTwice(lines, Others(pkg, test), OfPair(p, t));
      }
    }
  }

  /** A case carries the package and the test of the first line of its key. */
  lemma CaseNamed(lines: seq<Line>, key: string)
    requires Own(lines, key) != []
    ensures CaseOf(lines, key).file == Package(Own(lines, key)[0])
        && CaseOf(lines, key).name == TestName(Own(lines, key)[0])
    ensures KeyOf(CaseOf(lines, key).file, CaseOf(lines, key).name) == key
  {
    FilteredMembers(lines, OfKey(key));
    assert Own(lines, key)[0] in Own(lines, key);
  }

  lemma FrontedFirst(lines: seq<Line>, m: Line)
    requires m in lines && IsTest(m)
    ensures var own := Own(Fronted(lines, Package(m), TestName(m)), Key(m));
            own != [] && Package(own[0]) == Package(m) && TestName(own[0]) == TestName(m)
  {
    var mine, others := Filtered(lines, OfPair(Package(m), TestName(m))),
        Filtered(lines, Others(Package(m), TestName(m)));
    FilteredMembers(lines, OfPair(Package(m), TestName(m)));
    FilteredAll(mine, OfKey(Key(m)));
    FilteredAppend(mine, others, OfKey(Key(m)));
    assert m in mine && mine[0] in mine;
  }

  lemma ResultsMembers(lines: seq<Line>, nameLe: (string, string) -> bool, c: TestCase)
    ensures c in multiset(Results(lines, nameLe)) <==> exists key | key in Kept(lines) :: c == CaseOf(lines, key)
  {
    hide CaseOf, Kept;
    var cases := CasesOf(lines, Kept(lines));
    SortMultiset(cases, CaseLe(nameLe));
    CasesLength(lines, Kept(lines));
    assert c in multiset(cases) <==> c in cases;
    if key :| key in Kept(lines) && c == CaseOf(lines, key) {
      var i :| 0 <= i < |Kept(lines)| && Kept(lines)[i] == key;
      assert cases[i] == c;
    }
    if c in cases {
      var i :| 0 <= i < |cases| && cases[i] == c;
      assert Kept(lines)[i] in Kept(lines);
    }
  }

  /** Moving the lines of another test with the same key to the front gives the
      case of that key the other name or the other file. */
  lemma FrontedDiffers(lines: seq<Line>, m: Line, nameLe: (string, string) -> bool)
    requires m in lines && IsTest(m) && Key(m) in Kept(lines)
    requires Package(m) != CaseOf(lines, Key(m)).file || TestName(m) != CaseOf(lines, Key(m)).name
    ensures multiset(Results(Fronted(lines, Package(m), TestName(m)), nameLe)) != multiset(Results(lines, nameLe))
  {
    hide Results, Kept, CaseOf, Own, Fronted, SameByPair;
    var b := Fronted(lines, Package(m), TestName(m));
    FrontedByPair(lines, Package(m), TestName(m));
    KeptByPair(lines, b, Key(m));
    FrontedFirst(lines, m);
    CaseNamed(b, Key(m));
    var c := CaseOf(b, Key(m));
    ResultsMembers(b, nameLe, c);
    ResultsMembers(lines, nameLe, c);
    KeptMean(lines);
    forall key | key in Kept(lines)
      ensures c != CaseOf(lines, key)
    {
      CaseNamed(lines, key);
    }
  }

  /** Keeping the order of each test's lines is enough for the cases. */
  ghost predicate TestOrderSuffices(lines: seq<Line>, nameLe: (string, string) -> bool) {
    forall b | SameByPair(lines, b) :: multiset(Results(lines, nameLe)) == multiset(Results(b, nameLe))
  }

  /** The order in which tests are interleaved makes no difference exactly when no
      two tests share the key of a case. */
  lemma TestsInterleaveIff(lines: seq<Line>, nameLe: (string, string) -> bool)
    ensures TestOrderSuffices(lines, nameLe) <==> KeysApart(lines)
  {
    hide Results, Kept, CaseOf, SameByPair, Fronted;
    if KeysApart(lines) {
      forall b | SameByPair(lines, b)
        ensures multiset(Results(lines, nameLe)) == multiset(Results(b, nameLe))
      {
        ApartSameCases(lines, b, nameLe);
      }
    } else {
      var l, m :| l in lines && m in lines && IsTest(l) && IsTest(m) && Key(l) == Key(m) && Key(l) in Kept(lines)
        && (Package(l) != Package(m) || TestName(l) != TestName(m));
      var c := CaseOf(lines, Key(l));
      var other := if Package(l) == c.file && TestName(l) == c.name then m else l;
      FrontedByPair(lines, Package(other), TestName(other));
      FrontedDiffers(lines, other, nameLe);
    }
  }

  /** With no colon in any package the key identifies the package and the test. */
  lemma NoColonsApart(lines: seq<Line>)
    requires NoColons(lines)
    ensures KeysApart(lines)
  {
    forall l, m | l in lines && m in lines && IsTest(l) && IsTest(m) && Key(l) == Key(m)
      ensures Package(l) == Package(m) && TestName(l) == TestName(m)
    {
      KeyInjective(Package(l), TestName(l), Package(m), TestName(m));
    }
  }

  /** A colon in a package can make two tests share a key.  They then share one
      case, and its status depends on which of them finished last. */
  lemma SharedKey(nameLe: (string, string) -> bool) returns (a: seq<Line>, b: seq<Line>)
    ensures SameByPair(a, b)
    ensures |Results(a, nameLe)| == 1 && |Results(b, nameLe)| == 1
    ensures Results(a, nameLe)[0].status != Results(b, nameLe)[0].status
  {
    var l := Decoded(Pass, Some("a"), Some("b::c"), None, None);
    var m := Decoded(Fail, Some("a::b"), Some("c"), None, None);
    a, b := [l, m], [m, l];
    assert Key(l) == "a::b::c" == Key(m);
    forall pkg, test
      ensures Filtered(a, OfPair(pkg, test)) == Filtered(b, OfPair(pkg, test))
    {
      FilteredTwo(l, m, OfPair(pkg, test));
      FilteredTwo(m, l, OfPair(pkg, test));
      assert Package(l) != Package(m);
    }
    SharedCase(l, m, nameLe);
    SharedCase(m, l, nameLe);
  }

  lemma FilteredTwo<T>(x: T, y: T, keep: T -> bool)
    ensures Filtered([x, y], keep) == (if keep(x) then [x] else []) + if keep(y) then [y] else []
  {
    assert [x, y] == [x] + [y];
    FilteredAppend([x], [y], keep);
    FilteredOne(x, keep);
    FilteredOne(y, keep);
  }

  lemma OneKey(l: Line, m: Line)
    requires IsTest(l) && IsTest(m) && Key(l) == Key(m) && !IsSubtest(l) && !IsSubtest(m)
    ensures Kept([l, m]) == [Key(l)]
  {
    hide Key, IsTest, IsSubtest;
    var a := [l, m];
    assert [] + [l] == [l] && a == [l] + [m];
    KeysMore([], l);
    KeysMore([l], m);
    assert KeysSeen(a) == [Key(l)];
    assert !IsParent(a, Key(l));
    FilteredOne(Key(l), NoParent(a));
  }

  lemma OneOwn(l: Line, m: Line)
    requires IsTest(l) && IsTest(m) && Key(l) == Key(m)
    ensures Own([l, m], Key(l)) == [l, m]
  {
    FilteredTwo(l, m, OfKey(Key(l)));
  }

  lemma OneCase(a: seq<Line>, key: string, nameLe: (string, string) -> bool)
    requires Kept(a) == [key]
    ensures Results(a, nameLe) == [CaseOf(a, key)]
  {
    hide CaseOf, Kept;
    CasesOne(a, key);
    var c := CaseOf(a, key);
    assert [c][1..] == [];
    assert Sort([c], CaseLe(nameLe)) == [c];
  }

  lemma OneStatus(own: seq<Line>)
    requires StatusOf(own).Some?
    ensures Emitted(Gathered(own)).status == StatusOf(own).value
  {
  }

  lemma SharedCase(l: Line, m: Line, nameLe: (string, string) -> bool)
    requires IsTest(l) && IsTest(m) && Key(l) == Key(m) && !IsSubtest(l) && !IsSubtest(m) && Terminal(m)
    ensures |Results([l, m], nameLe)| == 1
    ensures Some(Results([l, m], nameLe)[0].status) == StatusFromAction(m.action)
  {
    hide Key, IsTest, IsSubtest, Results, Emitted, Gathered, MillisOf, OutputsOf, StatusOf, Own, Kept;
    OneKey(l, m);
    OneOwn(l, m);
    OneCase([l, m], Key(l), nameLe);
    SaysMore([l], m);
    assert [l] + [m] == [l, m];
    OneStatus([l, m]);
  }

  // ----- parents

  predicate Below(test: string, under: string) {
    |test| < |under| && under[..|test|] == test && under[|test|] == '/'
  }

  /** Some test of the same package sits below this one. */
  ghost predicate HasSubtests(lines: seq<Line>, l: Line) {
    exists m | m in lines :: IsTest(m) && Package(m) == Package(l) && Below(TestName(l), TestName(m))
  }

  lemma FirstSlashAt(s: string, i: nat)
    requires i < |s| && s[i] == '/' && '/' !in s[..i]
    ensures FirstSlash(s) == i
  {
    assert forall j | 0 <= j < i :: s[j] in s[..i];
  }

  /** Another test's parent has the key of this test. */
  ghost predicate Aliased(lines: seq<Line>, l: Line) {
    exists m | m in lines :: IsSubtest(m) && ParentKey(m) == Key(l)
      && !(Package(m) == Package(l) && TestName(m)[..FirstSlash(TestName(m))] == TestName(l))
  }

  lemma ParentIff(lines: seq<Line>, l: Line)
    requires IsTest(l)
    ensures IsParent(lines, Key(l)) <==> (HasSubtests(lines, l) && '/' !in TestName(l)) || Aliased(lines, l)
  {
    var t := TestName(l);
    if IsParent(lines, Key(l)) && !Aliased(lines, l) {
      var m :| m in lines && IsSubtest(m) && ParentKey(m) == Key(l);
      assert Package(m) == Package(l) && TestName(m)[..FirstSlash(TestName(m))] == t;
      assert Below(t, TestName(m));
    }
    if HasSubtests(lines, l) && '/' !in t {
      var m :| m in lines && IsTest(m) && Package(m) == Package(l) && Below(t, TestName(m));
      FirstSlashAt(TestName(m), |t|);
    }
  }

  /** A test is left out exactly when it has subtests and is itself at the top
      level, or its key is that of another test's parent. */
  lemma EmittedIff(lines: seq<Line>, l: Line)
    requires IsTest(l) && l in lines
    ensures Key(l) in Kept(lines) <==> !(HasSubtests(lines, l) && '/' !in TestName(l)) && !Aliased(lines, l)
  {
    KeptMean(lines);
    ParentIff(lines, l);
    FilteredMembers(lines, OfKey(Key(l)));
    assert l in Own(lines, Key(l));
  }

  /** The cases are the leaves exactly when only top-level tests have subtests and
      no leaf has the key of another test's parent: a subtest with subtests of its
      own is counted beside them. */
  lemma LeavesIff(lines: seq<Line>)
    ensures (forall l | l in lines && IsTest(l) :: Key(l) in Kept(lines) <==> !HasSubtests(lines, l))
       <==> (forall l | l in lines && IsTest(l) ::
               if HasSubtests(lines, l) then '/' !in TestName(l) || Aliased(lines, l) else !Aliased(lines, l))
  {
    hide Kept, HasSubtests, Aliased, Key;
    forall l | l in lines && IsTest(l)
      ensures Key(l) in Kept(lines) <==> !(HasSubtests(lines, l) && '/' !in TestName(l)) && !Aliased(lines, l)
    {
      EmittedIff(lines, l);
    }
  }

  lemma NoColonsNotAliased(lines: seq<Line>, l: Line)
    requires NoColons(lines) && l in lines
    ensures !Aliased(lines, l)
  {
    forall m | m in lines && IsSubtest(m) && ParentKey(m) == Key(l)
      ensures Package(m) == Package(l) && TestName(m)[..FirstSlash(TestName(m))] == TestName(l)
    {
      KeyInjective(Package(m), TestName(m)[..FirstSlash(TestName(m))], Package(l), TestName(l));
    }
  }

  // ----- errors that belong to no test

  predicate Unattached(l: Line) {
    !IsTest(l)
  }

  /** The build errors come from the other lines alone, in their order. */
  lemma {:induction false} BuildErrorsApart(lines: seq<Line>)
    ensures BuildErrors(lines) == BuildErrors(Filtered(lines, Unattached))
  {
    if lines != [] {
      var n := |lines| - 1;
      assert lines == lines[..n] + [lines[n]];
      BuildErrorsApart(lines[..n]);
      FilteredAppend(lines[..n], [lines[n]], Unattached);
      FilteredOne(lines[n], Unattached);
      BuildErrorsMore(lines[..n], lines[n]);
      BuildErrorsMore(Filtered(lines[..n], Unattached), lines[n]);
      assert Filtered(lines[..n], Unattached) + [] == Filtered(lines[..n], Unattached);
    }
  }
}
