/** JavaScript values as `JSON.parse` makes them and `JSON.stringify` reads
    them, with the small accessors the repository's files share. */
module Json {

  /** A finite number is represented by its shortest decimal rendering, the text
      `String(n)` gives (ECMA-262, section 6.1.6.1.20); that text identifies the
      number.  An object is its list of own properties in insertion order. */
  datatype Value =
    | Undefined
    | Null
    | Bool(b: bool)
    | Num(text: string)
    | Str(s: string)
    | Arr(items: seq<Value>)
    | Obj(fields: seq<Field>)

  datatype Field = Field(key: string, val: Value)

  datatype Option<+T> = None | Some(value: T)

  /** `obj[key]`, which is undefined when there is no such property. */
  function Get(fields: seq<Field>, key: string): (r: Value)
    ensures r.Undefined? || Field(key, r) in fields
    ensures Has(fields, key) ==> Field(key, r) in fields
  {
    if fields == [] then Undefined
    else if fields[0].key == key then
      assert fields[0] == Field(key, fields[0].val);
      fields[0].val
    else Get(fields[1..], key)
  }

  /** `key in obj` */
  predicate Has(fields: seq<Field>, key: string) {
    exists i | 0 <= i < |fields| :: fields[i].key == key
  }

  ghost predicate UniqueKeys(fields: seq<Field>) {
    forall i, j | 0 <= i < j < |fields| :: fields[i].key != fields[j].key
  }

  lemma {:induction false} GetAt(fields: seq<Field>, i: nat)
    requires UniqueKeys(fields) && i < |fields|
    ensures Get(fields, fields[i].key) == fields[i].val
  {
    if i > 0 {
      assert fields[1..][i - 1] == fields[i];
      GetAt(fields[1..], i - 1);
    }
  }

  // ----- numbers (RFC 8259, section 6)

  predicate Digit(c: char) {
    '0' <= c <= '9'
  }

  /** How many digits `s` starts with. */
  function DigitRun(s: string): (n: nat)
    ensures n <= |s| && (forall i | 0 <= i < n :: Digit(s[i])) && (n < |s| ==> !Digit(s[n]))
  {
    if s == "" || !Digit(s[0]) then 0 else 1 + DigitRun(s[1..])
  }

  predicate IsExponent(s: string) {
    s == "" ||
    (s[0] in "eE" &&
     var t := if |s| > 1 && s[1] in "+-" then s[2..] else s[1..];
     t != "" && DigitRun(t) == |t|)
  }

  predicate IsFraction(s: string) {
    if s != "" && s[0] == '.' then
      DigitRun(s[1..]) > 0 && IsExponent(s[1 + DigitRun(s[1..])..])
    else IsExponent(s)
  }

  function Unsigned(s: string): string {
    if s != "" && s[0] == '-' then s[1..] else s
  }

  predicate IsNumber(s: string) {
    var t := Unsigned(s);
    && DigitRun(t) > 0
    && (t[0] == '0' ==> DigitRun(t) == 1)
    && IsFraction(t[DigitRun(t)..])
  }

  /** What every value that can occur satisfies: numbers are numerals and an
      object has a property once. */
  ghost predicate Valid(v: Value) {
    match v
    case Num(text) => IsNumber(text)
    case Arr(items) => forall i | 0 <= i < |items| :: Valid(items[i])
    case Obj(fields) => UniqueKeys(fields) && forall i | 0 <= i < |fields| :: Valid(fields[i].val)
    case _ => true
  }
}
