/** packages/fixtures/conformance/harness.ts: `canonicalize` and `canonicalJson`.

    Keys are compared character by character.  (JavaScript compares UTF-16 code
    units, which differs only for characters beyond U+FFFF.) */
module CanonicalJson {
  import opened Json
  import opened JsonText
  import opened Sorting

  // ----- the order of strings

  predicate StrLe(a: string, b: string) {
    a == "" || (b != "" && (a[0] < b[0] || (a[0] == b[0] && StrLe(a[1..], b[1..]))))
  }

  lemma {:induction false} StrTotal(a: string, b: string)
    ensures StrLe(a, b) || StrLe(b, a)
    ensures StrLe(a, b) && StrLe(b, a) ==> a == b
  {
    if a != "" && b != "" {
      StrTotal(a[1..], b[1..]);
      assert a == [a[0]] + a[1..] && b == [b[0]] + b[1..];
    }
  }

  lemma {:induction false} StrTransitive(a: string, b: string, c: string)
    requires StrLe(a, b) && StrLe(b, c)
    ensures StrLe(a, c)
  {
    if a != "" && b != "" && c != "" && a[0] == b[0] == c[0] { StrTransitive(a[1..], b[1..], c[1..]); }
  }

  lemma StrOrder()
    ensures TotalPreorder(StrLe) && Antisymmetric(StrLe)
  {
    forall a, b
      ensures (StrLe(a, b) || StrLe(b, a)) && (StrLe(a, b) && StrLe(b, a) ==> a == b)
    {
      StrTotal(a, b);
    }
    forall a, b, c | StrLe(a, b) && StrLe(b, c)
      ensures StrLe(a, c)
    {
      StrTransitive(a, b, c);
    }
  }

  // ----- the canonical form

  /** `Object.keys` */
  function KeysOf(fields: seq<Field>): (r: seq<string>)
    ensures |r| == |fields| && forall i | 0 <= i < |fields| :: r[i] == fields[i].key
  {
    if fields == [] then [] else [fields[0].key] + KeysOf(fields[1..])
  }

  function Canonicalize(v: Value): Value
    decreases v, 1, 0
  {
    match v
    case Arr(items) => Arr(CanonicalItems(items))
    case Obj(fields) => Obj(CanonicalFields(fields, Sort(KeysOf(fields), StrLe)))
    case _ => v
  }

  function CanonicalItems(items: seq<Value>): (r: seq<Value>)
    ensures |r| == |items|
    ensures forall i | 0 <= i < |items| :: r[i] == Canonicalize(items[i])
    decreases items, 0, 0
  {
    if items == [] then [] else [Canonicalize(items[0])] + CanonicalItems(items[1..])
  }

  /** The properties named by `keys`, in that order, undefined ones left out. */
  function CanonicalFields(fields: seq<Field>, keys: seq<string>): seq<Field>
    decreases fields, 0, |keys|
  {
    if keys == [] then []
    else
      var child := Get(fields, keys[0]);
      if child.Undefined? then CanonicalFields(fields, keys[1..])
      else [Field(keys[0], Canonicalize(child))] + CanonicalFields(fields, keys[1..])
  }

  function Canonical(v: Value): Option<string> {
    Stringify(Canonicalize(v))
  }

  // ----- when two values mean the same

  /** Objects agree property by property, in any order, an undefined property
      being the same as none; array elements that are undefined count as null. */
  ghost predicate Same(a: Value, b: Value)
    decreases a, 0
  {
    match a
    case Undefined => b.Undefined? || b.Null?
    case Null => b.Undefined? || b.Null?
    case Arr(items) => b.Arr? && |items| == |b.items| && forall i | 0 <= i < |items| :: Same(items[i], b.items[i])
    case Obj(fields) =>
      && b.Obj?
      && (forall i | 0 <= i < |fields| && !fields[i].val.Undefined? :: MatchIn(fields[i], b.fields))
      && (forall j | 0 <= j < |b.fields| && !b.fields[j].val.Undefined? :: DefinedIn(b.fields[j].key, fields))
    case _ => a == b
  }

  ghost predicate MatchIn(f: Field, fields: seq<Field>)
    decreases f, 1
  {
    exists j | 0 <= j < |fields| ::
      fields[j].key == f.key && !fields[j].val.Undefined? && Same(f.val, fields[j].val)
  }

  ghost predicate DefinedIn(key: string, fields: seq<Field>) {
    exists i | 0 <= i < |fields| :: fields[i].key == key && !fields[i].val.Undefined?
  }

  // ----- the normal form of an object is determined by its properties

  ghost predicate StrictKeys(fields: seq<Field>) {
    forall i, j | 0 <= i < j < |fields| :: StrLe(fields[i].key, fields[j].key) && fields[i].key != fields[j].key
  }

  /** What is left of a value after printing its canonical form and reading it. */
  function Normal(v: Value): Value {
    Settled(Canonicalize(v))
  }

  function NormalFields(fields: seq<Field>): seq<Field> {
    SettledFields(CanonicalFields(fields, Sort(KeysOf(fields), StrLe)))
  }

  ghost predicate FromSource(f: Field, fields: seq<Field>, keys: seq<string>) {
    exists i | 0 <= i < |fields| ::
      fields[i].key == f.key && f.key in keys && !fields[i].val.Undefined? && f.val == Normal(fields[i].val)
  }

  lemma {:induction false} NormalMembers(fields: seq<Field>, keys: seq<string>)
    requires UniqueKeys(fields)
    ensures forall f :: f in SettledFields(CanonicalFields(fields, keys)) <==> FromSource(f, fields, keys)
  {
    if keys != [] {
      var k, child := keys[0], Get(fields, keys[0]);
      var rest := SettledFields(CanonicalFields(fields, keys[1..]));
      NormalMembers(fields, keys[1..]);
      forall f
        ensures f in SettledFields(CanonicalFields(fields, keys)) <==> FromSource(f, fields, keys)
      {
        assert f in rest <==> FromSource(f, fields, keys[1..]);
        assert f.key in keys <==> f.key == k || f.key in keys[1..];
        if FromSource(f, fields, keys) && f.key == k {
          var i :| 0 <= i < |fields| && fields[i].key == f.key && !fields[i].val.Undefined?
              && f.val == Normal(fields[i].val);
          GetAt(fields, i);
        }
        if !child.Undefined? && f == Field(k, Normal(child)) {
          var i :| 0 <= i < |fields| && fields[i] == Field(k, child);
          assert FromSource(f, fields, keys);
        }
      }
    }
  }

  lemma {:induction false} NormalStrict(fields: seq<Field>, keys: seq<string>)
    requires UniqueKeys(fields) && SortedBy(keys, StrLe)
    requires forall i, j | 0 <= i < j < |keys| :: keys[i] != keys[j]
    ensures StrictKeys(SettledFields(CanonicalFields(fields, keys)))
  {
    if keys != [] {
      var rest := SettledFields(CanonicalFields(fields, keys[1..]));
      forall i, j | 0 <= i < j < |keys[1..]|
        ensures StrLe(keys[1..][i], keys[1..][j]) && keys[1..][i] != keys[1..][j]
      {
        assert StrLe(keys[i + 1], keys[j + 1]) && keys[i + 1] != keys[j + 1];
      }
      NormalStrict(fields, keys[1..]);
      NormalMembers(fields, keys[1..]);
      forall j | 0 <= j < |rest|
        ensures StrLe(keys[0], rest[j].key) && keys[0] != rest[j].key
      {
        assert rest[j] in rest && FromSource(rest[j], fields, keys[1..]);
        var n :| 0 <= n < |keys[1..]| && keys[1..][n] == rest[j].key;
        assert keys[n + 1] == rest[j].key && StrLe(keys[0], keys[n + 1]);
      }
    }
  }

  /** The normal form of an object lists its defined properties, in key order. */
  lemma NormalObject(fields: seq<Field>)
    requires UniqueKeys(fields)
    ensures StrictKeys(NormalFields(fields))
    ensures forall f :: f in NormalFields(fields) <==> FromSource(f, fields, KeysOf(fields))
  {
    var keys := Sort(KeysOf(fields), StrLe);
    StrOrder();
    SortSorted(KeysOf(fields), StrLe);
    SortMembers(KeysOf(fields), StrLe);
    SortPairwise(KeysOf(fields), StrLe, Differ);
    assert Pairwise(KeysOf(fields), Differ);
    NormalMembers(fields, keys);
    NormalStrict(fields, keys) by { assert Pairwise(keys, Differ); }
  }

  predicate Differ(a: string, b: string) {
    a != b
  }

  lemma EmptyMembers<T>(s: seq<T>)
    ensures s == [] <==> forall x :: x !in s
  {
    if s != [] { assert s[0] in s; }
  }

  lemma StrictTail(s: seq<Field>)
    requires StrictKeys(s) && s != []
    ensures StrictKeys(s[1..]) && forall f :: f in s[1..] <==> f in s && f != s[0]
  {
    forall p, q | 0 <= p < q < |s[1..]|
      ensures StrLe(s[1..][p].key, s[1..][q].key) && s[1..][p].key != s[1..][q].key
    {
      assert s[1..][p] == s[p + 1] && s[1..][q] == s[q + 1];
    }
    assert forall k | 1 <= k < |s| :: s[0].key != s[k].key;
    assert s == [s[0]] + s[1..];
  }

  lemma HeadsEqual(a: seq<Field>, b: seq<Field>)
    requires StrictKeys(a) && StrictKeys(b) && a != [] && b != [] && a[0] in b && b[0] in a
    ensures a[0] == b[0]
  {
    var j :| 0 <= j < |b| && b[j] == a[0];
    var i :| 0 <= i < |a| && a[i] == b[0];
    StrTotal(a[0].key, b[0].key);
  }

  lemma {:induction false} StrictUnique(a: seq<Field>, b: seq<Field>)
    requires StrictKeys(a) && StrictKeys(b) && forall f :: f in a <==> f in b
    ensures a == b
  {
    hide StrictKeys;
    EmptyMembers(a);
    EmptyMembers(b);
    if a != [] {
      assert a[0] in b && b[0] in a;
      HeadsEqual(a, b);
      StrictTail(a);
      StrictTail(b);
      StrictUnique(a[1..], b[1..]);
      assert a == [a[0]] + a[1..] && b == [b[0]] + b[1..];
    }
  }

  // ----- equal normal forms mean the same value

  lemma {:induction false} NormalIff(a: Value, b: Value)
    requires Valid(a) && Valid(b)
    ensures Normal(a) == Normal(b) <==> Same(a, b)
    decreases a
  {
    match a
    case Arr(items) =>
      if b.Arr? && |items| == |b.items| {
        forall i | 0 <= i < |items|
          ensures Normal(items[i]) == Normal(b.items[i]) <==> Same(items[i], b.items[i])
        {
          NormalIff(items[i], b.items[i]);
        }
        assert Normal(a) == Normal(b) <==> forall i | 0 <= i < |items| :: Normal(items[i]) == Normal(b.items[i]);
      }
    case Obj(fields) =>
      if b.Obj? { NormalObjectIff(fields, b.fields); }
    case _ =>
  }

  lemma {:induction false} NormalObjectIff(fa: seq<Field>, fb: seq<Field>)
    requires Valid(Obj(fa)) && Valid(Obj(fb))
    ensures NormalFields(fa) == NormalFields(fb) <==> Same(Obj(fa), Obj(fb))
    decreases fa
  {
    NormalObject(fa);
    NormalObject(fb);
    assert Agreed(fa, fb) by {
      forall i, j | 0 <= i < |fa| && 0 <= j < |fb|
        ensures Normal(fa[i].val) == Normal(fb[j].val) <==> Same(fa[i].val, fb[j].val)
      {
        NormalIff(fa[i].val, fb[j].val);
      }
    }
    hide Normal, NormalFields, StrictKeys, FromSource;
    if NormalFields(fa) == NormalFields(fb) {
      SameFromNormal(fa, fb);
    }
    if Same(Obj(fa), Obj(fb)) {
      forall f
        ensures FromSource(f, fa, KeysOf(fa)) <==> FromSource(f, fb, KeysOf(fb))
      {
        SourcesAgree(fa, fb, f);
      }
      StrictUnique(NormalFields(fa), NormalFields(fb));
    }
  }

  ghost predicate Agreed(fa: seq<Field>, fb: seq<Field>) {
    forall i, j | 0 <= i < |fa| && 0 <= j < |fb| ::
      Normal(fa[i].val) == Normal(fb[j].val) <==> Same(fa[i].val, fb[j].val)
  }

  lemma MatchFromSource(fa: seq<Field>, i: nat, fb: seq<Field>)
    requires Agreed(fa, fb) && i < |fa|
    requires FromSource(Field(fa[i].key, Normal(fa[i].val)), fb, KeysOf(fb))
    ensures MatchIn(fa[i], fb)
  {
    hide Normal, Same;
  }

  lemma SourceFromMatch(fa: seq<Field>, i: nat, fb: seq<Field>)
    requires Agreed(fa, fb) && i < |fa| && MatchIn(fa[i], fb)
    ensures FromSource(Field(fa[i].key, Normal(fa[i].val)), fb, KeysOf(fb))
  {
    hide Normal, Same;
    var j :| 0 <= j < |fb| && fb[j].key == fa[i].key && !fb[j].val.Undefined? && Same(fa[i].val, fb[j].val);
    assert KeysOf(fb)[j] == fa[i].key;
  }

  lemma SameFromNormal(fa: seq<Field>, fb: seq<Field>)
    requires forall f :: FromSource(f, fa, KeysOf(fa)) <==> FromSource(f, fb, KeysOf(fb))
    requires Agreed(fa, fb)
    ensures Same(Obj(fa), Obj(fb))
  {
    hide Normal, Agreed, MatchIn;
    forall i | 0 <= i < |fa| && !fa[i].val.Undefined?
      ensures MatchIn(fa[i], fb)
    {
      var f := Field(fa[i].key, Normal(fa[i].val));
      assert KeysOf(fa)[i] == f.key && FromSource(f, fa, KeysOf(fa));
      assert FromSource(f, fb, KeysOf(fb));
      MatchFromSource(fa, i, fb);
    }
    forall j | 0 <= j < |fb| && !fb[j].val.Undefined?
      ensures DefinedIn(fb[j].key, fa)
    {
      var f := Field(fb[j].key, Normal(fb[j].val));
      assert KeysOf(fb)[j] == f.key && FromSource(f, fb, KeysOf(fb));
      assert FromSource(f, fa, KeysOf(fa));
    }
  }

  lemma SourcesAgree(fa: seq<Field>, fb: seq<Field>, f: Field)
    requires UniqueKeys(fb) && Same(Obj(fa), Obj(fb)) && Agreed(fa, fb)
    ensures FromSource(f, fa, KeysOf(fa)) <==> FromSource(f, fb, KeysOf(fb))
  {
    if FromSource(f, fa, KeysOf(fa)) {
      var i := SourceAt(f, fa);
      SourceFromMatch(fa, i, fb);
    }
    if FromSource(f, fb, KeysOf(fb)) {
      var j := SourceAt(f, fb);
      assert DefinedIn(fb[j].key, fa);
      BackToSource(fa, fb, j);
    }
  }

  lemma SourceAt(f: Field, fields: seq<Field>) returns (i: nat)
    requires FromSource(f, fields, KeysOf(fields))
    ensures i < |fields| && !fields[i].val.Undefined? && f == Field(fields[i].key, Normal(fields[i].val))
  {
    hide Normal;
    i :| 0 <= i < |fields| && fields[i].key == f.key && !fields[i].val.Undefined? && f.val == Normal(fields[i].val);
  }

  lemma BackToSource(fa: seq<Field>, fb: seq<Field>, j: nat)
    requires UniqueKeys(fb) && Agreed(fa, fb) && j < |fb| && DefinedIn(fb[j].key, fa)
    requires forall i | 0 <= i < |fa| && !fa[i].val.Undefined? :: MatchIn(fa[i], fb)
    ensures FromSource(Field(fb[j].key, Normal(fb[j].val)), fa, KeysOf(fa))
  {
    hide Normal, Same;
    var i :| 0 <= i < |fa| && fa[i].key == fb[j].key && !fa[i].val.Undefined?;
    assert MatchIn(fa[i], fb);
    assert KeysOf(fa)[i] == fb[j].key;
  }

  // ----- the main results

  lemma {:induction false} PrintSettled(v: Value)
    ensures Print(Settled(v)) == Print(v)
    decreases v, 1
  {
    match v
    case Arr(items) => PrintSettledItems(items);
    case Obj(fields) => PrintSettledFields(fields);
    case _ =>
  }

  lemma {:induction false} PrintSettledItems(items: seq<Value>)
    ensures PrintItems(SettledItems(items)) == PrintItems(items)
    decreases items, 0
  {
    if items != [] {
      PrintSettled(items[0]);
      PrintSettledItems(items[1..]);
      assert SettledItems(items)[1..] == SettledItems(items[1..]);
    }
  }

  lemma {:induction false} PrintSettledFields(fields: seq<Field>)
    ensures PrintMembers(SettledFields(fields)) == PrintMembers(fields)
    decreases fields, 0
  {
    if fields != [] {
      PrintSettledFields(fields[1..]);
      if !fields[0].val.Undefined? {
        PrintSettled(fields[0].val);
        var f := Field(fields[0].key, Settled(fields[0].val));
        assert ([f] + SettledFields(fields[1..]))[1..] == SettledFields(fields[1..]);
      }
    }
  }

  lemma {:induction false} CanonicalFieldsFrom(fields: seq<Field>, keys: seq<string>)
    requires Pairwise(keys, Differ)
    requires forall i | 0 <= i < |fields| :: Valid(Canonicalize(fields[i].val))
    ensures var r := CanonicalFields(fields, keys);
            UniqueKeys(r) && forall k | 0 <= k < |r| :: r[k].key in keys && Valid(r[k].val)
    decreases |keys|
  {
    hide Valid, Canonicalize, Get, Pairwise;
    if keys != [] {
      assert keys == [keys[0]] + keys[1..];
      PairwiseCons(keys[0], keys[1..], Differ);
      CanonicalFieldsFrom(fields, keys[1..]);
      var child := Get(fields, keys[0]);
      if !child.Undefined? {
        var i :| 0 <= i < |fields| && fields[i] == Field(keys[0], child);
        FirstKeyNew(keys[0], Canonicalize(child), CanonicalFields(fields, keys[1..]), keys[1..]);
      }
    }
  }

  lemma FirstKeyNew(key: string, val: Value, rest: seq<Field>, keys: seq<string>)
    requires UniqueKeys(rest) && (forall k | 0 <= k < |rest| :: rest[k].key in keys) && key !in keys
    ensures UniqueKeys([Field(key, val)] + rest)
  {
  }

  lemma {:induction false} CanonicalValid(v: Value)
    requires Valid(v)
    ensures Valid(Canonicalize(v))
    decreases v
  {
    match v
    case Arr(items) =>
      forall i | 0 <= i < |items| ensures Valid(Canonicalize(items[i])) { CanonicalValid(items[i]); }
    case Obj(fields) =>
      forall i | 0 <= i < |fields| ensures Valid(Canonicalize(fields[i].val)) { CanonicalValid(fields[i].val); }
      SortPairwise(KeysOf(fields), StrLe, Differ);
      assert Pairwise(KeysOf(fields), Differ);
      CanonicalFieldsFrom(fields, Sort(KeysOf(fields), StrLe));
    case _ =>
  }

  lemma {:induction false} SettledValid(v: Value)
    requires Valid(v)
    ensures Valid(Settled(v))
    decreases v
  {
    match v
    case Arr(items) =>
      forall i | 0 <= i < |items| ensures Valid(Settled(items[i])) { SettledValid(items[i]); }
    case Obj(fields) =>
      forall i | 0 <= i < |fields| ensures Valid(Settled(fields[i].val)) { SettledValid(fields[i].val); }
      SettledKeys(fields);
      SettledFieldsFrom(fields);
    case _ =>
  }

  lemma {:induction false} SettledFieldsFrom(fields: seq<Field>)
    requires forall i | 0 <= i < |fields| :: Valid(Settled(fields[i].val))
    ensures forall k | 0 <= k < |SettledFields(fields)| :: Valid(SettledFields(fields)[k].val)
  {
    if fields != [] { SettledFieldsFrom(fields[1..]); }
  }

  lemma {:induction false} NormalSame(v: Value)
    requires Valid(v)
    ensures Same(Normal(v), v)
    decreases v
  {
    match v
    case Arr(items) =>
      forall i | 0 <= i < |items| ensures Same(Normal(items[i]), items[i]) { NormalSame(items[i]); }
    case Obj(fields) =>
      forall i | 0 <= i < |fields| ensures Same(Normal(fields[i].val), fields[i].val) { NormalSame(fields[i].val); }
      NormalObjectSame(fields);
    case _ =>
  }

  lemma NormalObjectSame(fields: seq<Field>)
    requires UniqueKeys(fields) && forall i | 0 <= i < |fields| :: Same(Normal(fields[i].val), fields[i].val)
    ensures Same(Obj(NormalFields(fields)), Obj(fields))
  {
    hide Normal, NormalFields, UniqueKeys, MatchIn, DefinedIn;
    NormalMatches(fields);
    NormalCovers(fields);
  }

  lemma NormalMatches(fields: seq<Field>)
    requires UniqueKeys(fields) && forall i | 0 <= i < |fields| :: Same(Normal(fields[i].val), fields[i].val)
    ensures forall k | 0 <= k < |NormalFields(fields)| :: MatchIn(NormalFields(fields)[k], fields)
  {
    NormalObject(fields);
    hide Normal, NormalFields, UniqueKeys, StrictKeys, Same;
    var r := NormalFields(fields);
    forall k | 0 <= k < |r|
      ensures MatchIn(r[k], fields)
    {
      assert r[k] in r && FromSource(r[k], fields, KeysOf(fields));
      var i := SourceAt(r[k], fields);
      assert Same(r[k].val, fields[i].val);
    }
  }

  lemma NormalCovers(fields: seq<Field>)
    requires UniqueKeys(fields)
    ensures forall i | 0 <= i < |fields| && !fields[i].val.Undefined? :: DefinedIn(fields[i].key, NormalFields(fields))
  {
    NormalObject(fields);
    hide Normal, NormalFields, UniqueKeys, StrictKeys, Same;
    var r := NormalFields(fields);
    forall i | 0 <= i < |fields| && !fields[i].val.Undefined?
      ensures DefinedIn(fields[i].key, r)
    {
      var f := Field(fields[i].key, Normal(fields[i].val));
      assert KeysOf(fields)[i] == f.key && FromSource(f, fields, KeysOf(fields));
      var k :| 0 <= k < |r| && r[k] == f;
      NormalDefined(fields[i].val);
    }
  }

  lemma NormalDefined(v: Value)
    ensures !Normal(v).Undefined?
  {
  }

  /** Canonical texts are equal exactly when the values differ in nothing but the
      order of keys, undefined properties, and undefined for null in arrays. */
  lemma PrintsAlikeIff(a: Value, b: Value)
    requires Valid(a) && Valid(b)
    ensures Canonical(a) == Canonical(b) <==> (a.Undefined? <==> b.Undefined?) && Same(a, b)
  {
    CanonicalValid(a);
    CanonicalValid(b);
    ParsePrinted(Canonicalize(a));
    ParsePrinted(Canonicalize(b));
    PrintSettled(Canonicalize(a));
    PrintSettled(Canonicalize(b));
    NormalIff(a, b);
  }

  /** Parsing the canonical text succeeds, and printing the result canonically
      gives the same text back. */
  lemma RoundTrip(v: Value)
    requires Valid(v) && !v.Undefined?
    ensures Canonical(v).Some? && Parse(Canonical(v).value) == Some(Normal(v))
    ensures Canonical(Normal(v)) == Canonical(v)
  {
    CanonicalValid(v);
    ParsePrinted(Canonicalize(v));
    SettledValid(Canonicalize(v));
    NormalSame(v);
    NormalDefined(v);
    PrintsAlikeIff(Normal(v), v);
  }

  /** Different values that print alike: an undefined array element and null. */
  lemma UndefinedPrintsAsNull()
    ensures Arr([Undefined]) != Arr([Null]) && Canonical(Arr([Undefined])) == Canonical(Arr([Null]))
  {
    var a, b := Arr([Undefined]), Arr([Null]);
    assert a.items[0] != b.items[0];
    assert Same(a.items[0], b.items[0]);
    PrintsAlikeIff(a, b);
  }

  // ----- the order of keys

  /** Strings are ordered by the first character in which they differ, a beginning
      before what it begins. */
  lemma {:induction false} StrLeMeans(common: string, x: string, y: string)
    requires x != "" && y != "" ==> x[0] != y[0]
    ensures StrLe(common + x, common + y) <==> x == "" || (y != "" && x[0] < y[0])
    decreases |common|
  {
    if common == "" {
      assert common + x == x && common + y == y;
    } else {
      assert (common + x)[1..] == common[1..] + x && (common + y)[1..] == common[1..] + y;
      StrLeMeans(common[1..], x, y);
    }
  }

  /** The keys of a canonical object ascend. */
  lemma KeysAscend(fields: seq<Field>, i: nat, j: nat)
    requires UniqueKeys(fields) && Canonicalize(Obj(fields)).Obj? && i < j < |Canonicalize(Obj(fields)).fields|
    ensures var f := Canonicalize(Obj(fields)).fields;
            StrLe(f[i].key, f[j].key) && f[i].key != f[j].key
  {
    hide StrLe;
    var keys := Sort(KeysOf(fields), StrLe);
    StrOrder();
    SortSorted(KeysOf(fields), StrLe);
    SortPairwise(KeysOf(fields), StrLe, Unequal);
    assert Pairwise(KeysOf(fields), Unequal);
    var at := CanonicalKeys(fields, keys);
    assert StrLe(keys[at[i]], keys[at[j]]) && Unequal(keys[at[i]], keys[at[j]]);
  }

  predicate Unequal(a: string, b: string) {
    a != b
  }

  /** Where the keys of the canonical object stand among `keys`. */
  lemma {:induction false} CanonicalKeys(fields: seq<Field>, keys: seq<string>) returns (at: seq<nat>)
    ensures |at| == |CanonicalFields(fields, keys)|
    ensures forall i | 0 <= i < |at| :: at[i] < |keys| && CanonicalFields(fields, keys)[i].key == keys[at[i]]
    ensures forall i, j | 0 <= i < j < |at| :: at[i] < at[j]
    decreases |keys|
  {
    at := [];
    if keys != [] {
      var more := CanonicalKeys(fields, keys[1..]);
      var shifted := seq(|more|, i requires 0 <= i < |more| => more[i] + 1);
      at := if Get(fields, keys[0]).Undefined? then shifted else [0] + shifted;
    }
  }
}
