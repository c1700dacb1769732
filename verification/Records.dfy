/** Objects built property by property, and assignments to a property. */
module Records {
  import opened Json

  /** The object that has property `names[i]` for every defined `slots[i]`. */
  function Present(names: seq<string>, slots: seq<Value>): seq<Field>
    requires |names| == |slots|
  {
    if names == [] then []
    else if slots[0].Undefined? then Present(names[1..], slots[1..])
    else [Field(names[0], slots[0])] + Present(names[1..], slots[1..])
  }

  /** The value if it is a string. */
  function Text(v: Value): Value {
    if v.Str? then v else Undefined
  }

  ghost predicate Distinct(names: seq<string>) {
    forall i, j | 0 <= i < j < |names| :: names[i] != names[j]
  }

  lemma {:induction false} PresentMembers(names: seq<string>, slots: seq<Value>)
    requires |names| == |slots| && Distinct(names)
    ensures UniqueKeys(Present(names, slots))
    ensures forall f :: f in Present(names, slots) <==>
              exists i | 0 <= i < |names| :: f == Field(names[i], slots[i]) && !slots[i].Undefined?
  {
    if names != [] {
      var rest := Present(names[1..], slots[1..]);
      assert Distinct(names[1..]) by {
        forall i, j | 0 <= i < j < |names[1..]|
            ensures names[1..][i] != names[1..][j] { assert names[i + 1] != names[j + 1]; }
      }
      PresentMembers(names[1..], slots[1..]);
      forall f
        ensures f in rest <==> exists i | 1 <= i < |names| :: f == Field(names[i], slots[i]) && !slots[i].Undefined?
      {
        if f in rest {
          var i :| 0 <= i < |names[1..]| && f == Field(names[1..][i], slots[1..][i]) && !slots[1..][i].Undefined?;
          assert f == Field(names[i + 1], slots[i + 1]);
        }
        if i :| 1 <= i < |names| && f == Field(names[i], slots[i]) && !slots[i].Undefined? {
          assert f == Field(names[1..][i - 1], slots[1..][i - 1]);
        }
      }
      forall k | 0 <= k < |rest|
        ensures rest[k].key != names[0]
      {
        assert rest[k] in rest;
      }
    }
  }

  lemma PresentGet(names: seq<string>, slots: seq<Value>, i: nat)
    requires |names| == |slots| && Distinct(names) && i < |names|
    ensures Has(Present(names, slots), names[i]) <==> !slots[i].Undefined?
    ensures Get(Present(names, slots), names[i]) == slots[i]
  {
    PresentMembers(names, slots);
    var fields := Present(names, slots);
    var r := Get(fields, names[i]);
    if Has(fields, names[i]) {
      assert Field(names[i], r) in fields;
      var k :| 0 <= k < |names| && Field(names[i], r) == Field(names[k], slots[k]) && !slots[k].Undefined?;
      assert k == i;
    }
    if !slots[i].Undefined? {
      assert Field(names[i], slots[i]) in fields;
      var k :| 0 <= k < |fields| && fields[k] == Field(names[i], slots[i]);
      GetAt(fields, k);
    }
  }

  // ----- assignment

  /** `obj[key] = val` */
  function Put(fields: seq<Field>, f: Field): seq<Field> {
    if fields == [] then [f]
    else if fields[0].key == f.key then [f] + fields[1..]
    else [fields[0]] + Put(fields[1..], f)
  }

  lemma {:induction false} PutNew(fields: seq<Field>, f: Field)
    requires forall g | g in fields :: g.key != f.key
    ensures Put(fields, f) == fields + [f]
  {
    if fields != [] { PutNew(fields[1..], f); }
  }

  /** Assigning what is already there changes nothing. */
  lemma {:induction false} PutSame(fields: seq<Field>, f: Field)
    requires Has(fields, f.key) && Get(fields, f.key) == f.val
    ensures Put(fields, f) == fields
  {
    if fields[0].key != f.key {
      HasTail(fields, f.key);
      PutSame(fields[1..], f);
    }
  }

  lemma HasTail(fields: seq<Field>, key: string)
    requires Has(fields, key) && fields[0].key != key
    ensures Has(fields[1..], key)
  {
    var i :| 0 <= i < |fields| && fields[i].key == key;
    assert fields[1..][i - 1].key == key;
  }

  lemma {:induction false} PutGet(fields: seq<Field>, f: Field, key: string)
    ensures Has(Put(fields, f), f.key)
    ensures Get(Put(fields, f), key) == if key == f.key then f.val else Get(fields, key)
  {
    if fields == [] || fields[0].key == f.key {
      assert Put(fields, f)[0] == f;
    } else {
      PutGet(fields[1..], f, key);
      var k :| 0 <= k < |Put(fields[1..], f)| && Put(fields[1..], f)[k].key == f.key;
      assert Put(fields, f)[k + 1].key == f.key;
    }
  }
}
