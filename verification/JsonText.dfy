/** JSON text: what `JSON.stringify` prints and how `JSON.parse` reads it
    (RFC 8259, sections 4-7).  Surrogate escapes are not read. */
module JsonText {
  import opened Json
  import opened Records

  // ----- printing

  /** `"\b"` and the like, by code. */
  function ShortEscape(n: int): Option<char> {
    if n == 8 then Some('b') else if n == 9 then Some('t') else if n == 10 then Some('n')
    else if n == 12 then Some('f') else if n == 13 then Some('r')
    else if n == 34 then Some('"') else if n == 92 then Some('\\') else None
  }

  const HEX := "0123456789abcdef"

  function Escaped(c: char): (r: string)
    ensures r != ""
  {
    var n := c as int;
    if ShortEscape(n).Some? then ['\\', ShortEscape(n).value]
    else if n < 32 then ['\\', 'u', '0', '0', HEX[n / 16], HEX[n % 16]]
    else [c]
  }

  function EscapedAll(s: string): string {
    if s == "" then "" else Escaped(s[0]) + EscapedAll(s[1..])
  }

  function Quoted(s: string): string {
    "\"" + EscapedAll(s) + "\""
  }

  /** The text of a value inside another one: there, undefined prints as null. */
  function Print(v: Value): string
    decreases v, 1
  {
    match v
    case Undefined => "null"
    case Null => "null"
    case Bool(b) => if b then "true" else "false"
    case Num(text) => text
    case Str(s) => Quoted(s)
    case Arr(items) => "[" + PrintItems(items) + "]"
    case Obj(fields) => "{" + PrintMembers(fields) + "}"
  }

  function PrintItems(items: seq<Value>): string
    decreases items, 0
  {
    if items == [] then ""
    else if |items| == 1 then Print(items[0])
    else Print(items[0]) + "," + PrintItems(items[1..])
  }

  /** Properties whose value is undefined are left out. */
  function PrintMembers(fields: seq<Field>): string
    decreases fields, 0
  {
    if fields == [] then ""
    else if fields[0].val.Undefined? then PrintMembers(fields[1..])
    else
      var more := PrintMembers(fields[1..]);
      Quoted(fields[0].key) + ":" + Print(fields[0].val) + (if more == "" then "" else "," + more)
  }

  /** `JSON.stringify`, which gives nothing for undefined itself. */
  function Stringify(v: Value): Option<string> {
    if v.Undefined? then None else Some(Print(v))
  }

  // ----- reading

  datatype Read<+T> = Ok(val: T, rest: string) | Fail

  predicate Blank(c: char) {
    c == ' ' || c == '\n' || c == '\r' || c == '\t'
  }

  function SkipBlanks(s: string): (r: string)
    ensures |r| <= |s| && (r != "" ==> !Blank(r[0]))
  {
    if s != "" && Blank(s[0]) then SkipBlanks(s[1..]) else s
  }

  function HexValue(c: char): (n: int)
    ensures -1 <= n < 16
  {
    if '0' <= c <= '9' then c as int - '0' as int
    else if 'a' <= c <= 'f' then c as int - 'a' as int + 10
    else if 'A' <= c <= 'F' then c as int - 'A' as int + 10
    else -1
  }

  /** The character an escape denotes, after the backslash. */
  function ReadEscape(s: string): (r: Read<char>)
    ensures r.Ok? ==> |r.rest| < |s|
  {
    if s == "" then Fail
    else match s[0]
      case '"' => Ok('"', s[1..])
      case '\\' => Ok('\\', s[1..])
      case '/' => Ok('/', s[1..])
      case 'b' => Ok(8 as char, s[1..])
      case 'f' => Ok(12 as char, s[1..])
      case 'n' => Ok('\n', s[1..])
      case 'r' => Ok('\r', s[1..])
      case 't' => Ok('\t', s[1..])
      case 'u' =>
        if |s| < 5 then Fail
        else
          var a, b, c, d := HexValue(s[1]), HexValue(s[2]), HexValue(s[3]), HexValue(s[4]);
          var code := a * 4096 + b * 256 + c * 16 + d;
          if a < 0 || b < 0 || c < 0 || d < 0 || 0xD800 <= code < 0xE000 then Fail
          else Ok(code as char, s[5..])
      case _ => Fail
  }

  /** The rest of a string literal, after its opening quote. */
  function ReadChars(s: string): (r: Read<string>)
    ensures r.Ok? ==> |r.rest| < |s|
    decreases |s|
  {
    if s == "" || s[0] < ' ' then Fail
    else if s[0] == '"' then Ok("", s[1..])
    else
      var one := if s[0] == '\\' then ReadEscape(s[1..]) else Ok(s[0], s[1..]);
      if one.Fail? then Fail
      else
        var more := ReadChars(one.rest);
        if more.Fail? then Fail else Ok([one.val] + more.val, more.rest)
  }

  predicate NumChar(c: char) {
    Digit(c) || c in "+-.eE"
  }

  function NumRun(s: string): (n: nat)
    ensures n <= |s|
  {
    if s == "" || !NumChar(s[0]) then 0 else 1 + NumRun(s[1..])
  }

  /** A later property of the same name replaces the earlier one's value. */
  function PutAll(fields: seq<Field>, members: seq<Field>): seq<Field>
    decreases |members|
  {
    if members == [] then fields else PutAll(Put(fields, members[0]), members[1..])
  }

  function ReadValue(s: string): (r: Read<Value>)
    ensures r.Ok? ==> |r.rest| < |s|
    decreases |s|, 0
  {
    var t := SkipBlanks(s);
    if t == "" then Fail
    else if t[0] == '"' then
      var r := ReadChars(t[1..]);
      if r.Fail? then Fail else Ok(Str(r.val), r.rest)
    else if t[0] == '[' then
      var u := SkipBlanks(t[1..]);
      if u != "" && u[0] == ']' then Ok(Arr([]), u[1..])
      else
        var r := ReadItems(t[1..]);
        if r.Fail? then Fail else Ok(Arr(r.val), r.rest)
    else if t[0] == '{' then
      var u := SkipBlanks(t[1..]);
      if u != "" && u[0] == '}' then Ok(Obj([]), u[1..])
      else
        var r := ReadMembers(t[1..]);
        if r.Fail? then Fail else Ok(Obj(PutAll([], r.val)), r.rest)
    else if |t| >= 4 && t[..4] == "null" then Ok(Null, t[4..])
    else if |t| >= 4 && t[..4] == "true" then Ok(Bool(true), t[4..])
    else if |t| >= 5 && t[..5] == "false" then Ok(Bool(false), t[5..])
    else
      var n := NumRun(t);
      if n > 0 && IsNumber(t[..n]) then Ok(Num(t[..n]), t[n..]) else Fail
  }

  function ReadItems(s: string): (r: Read<seq<Value>>)
    ensures r.Ok? ==> |r.rest| < |s|
    decreases |s|, 1
  {
    var v := ReadValue(s);
    if v.Fail? then Fail
    else
      var t := SkipBlanks(v.rest);
      if t == "" then Fail
      else if t[0] == ']' then Ok([v.val], t[1..])
      else if t[0] != ',' then Fail
      else
        var more := ReadItems(t[1..]);
        if more.Fail? then Fail else Ok([v.val] + more.val, more.rest)
  }

  function ReadMember(s: string): (r: Read<Field>)
    ensures r.Ok? ==> |r.rest| < |s|
    decreases |s|, 1
  {
    var t := SkipBlanks(s);
    if t == "" || t[0] != '"' then Fail
    else
      var k := ReadChars(t[1..]);
      if k.Fail? || SkipBlanks(k.rest) == "" || SkipBlanks(k.rest)[0] != ':' then Fail
      else
        var v := ReadValue(SkipBlanks(k.rest)[1..]);
        if v.Fail? then Fail else Ok(Field(k.val, v.val), v.rest)
  }

  function ReadMembers(s: string): (r: Read<seq<Field>>)
    ensures r.Ok? ==> |r.rest| < |s|
    decreases |s|, 2
  {
    var f := ReadMember(s);
    if f.Fail? then Fail
    else
      var t := SkipBlanks(f.rest);
      if t == "" then Fail
      else if t[0] == '}' then Ok([f.val], t[1..])
      else if t[0] != ',' then Fail
      else
        var more := ReadMembers(t[1..]);
        if more.Fail? then Fail else Ok([f.val] + more.val, more.rest)
  }

  /** `JSON.parse` */
  function Parse(s: string): Option<Value> {
    var r := ReadValue(s);
    if r.Ok? && SkipBlanks(r.rest) == "" then Some(r.val) else None
  }

  // ----- reading what was printed

  /** What becomes of a value when it is printed and read back. */
  function Settled(v: Value): Value
    decreases v, 1
  {
    match v
    case Undefined => Null
    case Arr(items) => Arr(SettledItems(items))
    case Obj(fields) => Obj(SettledFields(fields))
    case _ => v
  }

  function SettledItems(items: seq<Value>): (r: seq<Value>)
    ensures |r| == |items|
    ensures forall i | 0 <= i < |items| :: r[i] == Settled(items[i])
    decreases items, 0
  {
    if items == [] then [] else [Settled(items[0])] + SettledItems(items[1..])
  }

  function SettledFields(fields: seq<Field>): seq<Field>
    decreases fields, 0
  {
    if fields == [] then []
    else if fields[0].val.Undefined? then SettledFields(fields[1..])
    else [Field(fields[0].key, Settled(fields[0].val))] + SettledFields(fields[1..])
  }

  lemma ReadEscapedOne(c: char, rest: string)
    ensures var s := Escaped(c) + rest;
            s[0] >= ' ' && s[0] != '"' &&
            (if s[0] == '\\' then ReadEscape(s[1..]) else Ok(s[0], s[1..])) == Ok(c, rest)
  {
    var n := c as int;
    var s := Escaped(c) + rest;
    if ShortEscape(n).Some? {
      assert s[1..] == [ShortEscape(n).value] + rest && s[2..] == rest;
    } else if n < 32 {
      assert s[1] == 'u' && s[2] == '0' && s[3] == '0' && s[4] == HEX[n / 16] && s[5] == HEX[n % 16];
      HexDigits(n / 16);
      HexDigits(n % 16);
      assert s[1..][5..] == rest;
    } else {
      assert s[1..] == rest;
    }
  }

  lemma HexDigits(d: int)
    requires 0 <= d < 16
    ensures HexValue(HEX[d]) == d
  {
  }

  lemma {:induction false} ReadEscapedAll(s: string, rest: string)
    ensures ReadChars(EscapedAll(s) + "\"" + rest) == Ok(s, rest)
  {
    hide Escaped, ReadEscape;
    if s == "" {
      assert (EscapedAll(s) + "\"" + rest)[1..] == rest;
    } else {
      var tail := EscapedAll(s[1..]) + "\"" + rest;
      ReadEscapedAll(s[1..], rest);
      ReadEscapedOne(s[0], tail);
      assert EscapedAll(s) + "\"" + rest == Escaped(s[0]) + tail;
      assert [s[0]] + s[1..] == s;
    }
  }

  predicate NumChars(s: string) {
    forall i | 0 <= i < |s| :: NumChar(s[i])
  }

  lemma NumCharsJoin(s: string, k: nat)
    requires k <= |s| && NumChars(s[..k]) && NumChars(s[k..])
    ensures NumChars(s)
  {
    forall i | 0 <= i < |s|
      ensures NumChar(s[i])
    {
      if i < k { assert s[..k][i] == s[i]; } else { assert s[k..][i - k] == s[i]; }
    }
  }

  lemma DigitRunChars(s: string)
    ensures NumChars(s[..DigitRun(s)])
  {
  }

  lemma ExponentChars(s: string)
    requires IsExponent(s)
    ensures NumChars(s)
  {
    if s != "" {
      var k := if |s| > 1 && s[1] in "+-" then 2 else 1;
      DigitRunChars(s[k..]);
      assert s[k..][..|s| - k] == s[k..];
      NumCharsJoin(s, k);
    }
  }

  lemma FractionChars(s: string)
    requires IsFraction(s)
    ensures NumChars(s)
  {
    hide IsExponent;
    if s != "" && s[0] == '.' {
      var t := s[1..];
      var k := DigitRun(t);
      assert t[k..] == s[1 + k..];
      ExponentChars(t[k..]);
      DigitRunChars(t);
      NumCharsJoin(t, k);
      NumCharsJoin(s, 1);
    } else {
      ExponentChars(s);
    }
  }

  lemma NumberChars(s: string)
    requires IsNumber(s)
    ensures s != "" && (s[0] == '-' || Digit(s[0])) && NumChars(s)
  {
    hide IsFraction;
    var t := Unsigned(s);
    var n := DigitRun(t);
    FractionChars(t[n..]);
    DigitRunChars(t);
    NumCharsJoin(t, n);
    if |t| < |s| { NumCharsJoin(s, 1); }
  }

  lemma {:induction false} NumRunOf(s: string, rest: string)
    requires NumChars(s) && (rest == "" || !NumChar(rest[0]))
    ensures NumRun(s + rest) == |s|
  {
    if s == "" {
      assert s + rest == rest;
    } else {
      NumRunOf(s[1..], rest);
      assert (s + rest)[1..] == s[1..] + rest;
    }
  }

  /** How the text of a value starts. */
  lemma PrintStart(v: Value)
    requires Valid(v)
    ensures Print(v) != "" && !Blank(Print(v)[0]) && Print(v)[0] != ']'
  {
    if v.Num? { NumberChars(v.text); }
  }

  predicate Stops(rest: string) {
    rest == "" || rest[0] in ",]}"
  }

  /** Reading the text of a value, whatever follows it, gives the settled value
      and leaves what follows. */
  lemma {:induction false} ReadPrinted(v: Value, rest: string)
    requires Valid(v) && Stops(rest)
    ensures ReadValue(Print(v) + rest) == Ok(Settled(v), rest)
    decreases v, 1
  {
    hide ReadValue, ReadItems, ReadMembers, ReadChars;
    match v
    case Undefined => ReadWord("null", Null, rest);
    case Null => ReadWord("null", Null, rest);
    case Bool(b) => ReadWord(if b then "true" else "false", v, rest);
    case Num(text) => ReadNumber(text, rest);
    case Str(t) => ReadText(t, rest);
    case Arr(items) => ReadArray(items, rest);
    case Obj(fields) => ReadObject(fields, rest);
  }

  lemma ReadWord(word: string, v: Value, rest: string)
    requires (word == "null" && v == Null) || (word == "true" && v == Bool(true))
        || (word == "false" && v == Bool(false))
    ensures ReadValue(word + rest) == Ok(v, rest)
  {
    hide ReadItems, ReadMembers, ReadChars, IsNumber;
    var s := word + rest;
    assert SkipBlanks(s) == s;
    assert s[..|word|] == word && s[|word|..] == rest;
    assert s[..4] == word[..4];
  }

  lemma ReadText(t: string, rest: string)
    ensures ReadValue(Quoted(t) + rest) == Ok(Str(t), rest)
  {
    hide ReadItems, ReadMembers, ReadChars, IsNumber;
    ReadEscapedAll(t, rest);
    assert Quoted(t) + rest == "\"" + (EscapedAll(t) + "\"" + rest);
  }

  lemma ReadNumber(text: string, rest: string)
    requires IsNumber(text) && Stops(rest)
    ensures ReadValue(text + rest) == Ok(Num(text), rest)
  {
    hide IsNumber, ReadItems, ReadMembers, ReadChars, NumRun;
    var s := text + rest;
    NumberChars(text);
    NumRunOf(text, rest);
    assert SkipBlanks(s) == s && s[0] == text[0];
    assert s[..|text|] == text && s[|text|..] == rest;
    assert |s| >= 4 ==> s[..4][0] == text[0];
    assert |s| >= 5 ==> s[..5][0] == text[0];
  }

  lemma ReadArray(items: seq<Value>, rest: string)
    requires (forall i | 0 <= i < |items| :: Valid(items[i])) && Stops(rest)
    ensures ReadValue("[" + PrintItems(items) + "]" + rest) == Ok(Arr(SettledItems(items)), rest)
    decreases items, 1
  {
    hide ReadItems, ReadValue, Print, SettledItems, Valid, NumChar;
    if items == [] {
      assert "[" + PrintItems(items) + "]" + rest == "[" + ("]" + rest);
      ReadEmptyArray(rest);
      assert SettledItems(items) == [];
    } else {
      var t := PrintItems(items) + "]" + rest;
      assert "[" + PrintItems(items) + "]" + rest == "[" + t;
      PrintStart(items[0]);
      ItemsStart(items);
      assert t[0] == Print(items[0])[0];
      assert SkipBlanks(t) == t;
      ReadBracket(t);
      ReadPrintedItems(items, rest);
    }
  }

  lemma ReadEmptyArray(rest: string)
    ensures ReadValue("[" + ("]" + rest)) == Ok(Arr([]), rest)
  {
    hide ReadMembers, ReadItems, ReadChars, IsNumber;
    var s := "[" + ("]" + rest);
    assert SkipBlanks(s) == s && s[1..] == "]" + rest && s[1..][1..] == rest;
  }

  lemma ReadBracket(t: string)
    requires t != "" && SkipBlanks(t) == t && t[0] != ']'
    ensures ReadValue("[" + t) == (var r := ReadItems(t); if r.Fail? then Fail else Ok(Arr(r.val), r.rest))
  {
    hide ReadMembers, ReadItems, ReadChars, IsNumber;
    var s := "[" + t;
    assert SkipBlanks(s) == s && s[1..] == t;
  }

  lemma ItemsStart(items: seq<Value>)
    requires items != [] && Print(items[0]) != ""
    ensures PrintItems(items) != "" && PrintItems(items)[0] == Print(items[0])[0]
  {
  }

  lemma {:induction false} ReadPrintedItems(items: seq<Value>, rest: string)
    requires items != [] && (forall i | 0 <= i < |items| :: Valid(items[i])) && Stops(rest)
    ensures ReadItems(PrintItems(items) + "]" + rest) == Ok(SettledItems(items), rest)
    decreases items, 0
  {
    hide ReadValue, Print, Settled, Valid;
    var s := PrintItems(items) + "]" + rest;
    var tail := if |items| == 1 then "]" + rest else "," + (PrintItems(items[1..]) + "]" + rest);
    assert s == Print(items[0]) + tail;
    ReadPrinted(items[0], tail);
    assert SkipBlanks(tail) == tail;
    if |items| == 1 {
      assert tail[1..] == rest;
      assert SettledItems(items) == [Settled(items[0])];
    } else {
      ReadPrintedItems(items[1..], rest);
      assert tail[1..] == PrintItems(items[1..]) + "]" + rest;
    }
  }

  lemma {:induction false} SettledKeys(fields: seq<Field>)
    requires UniqueKeys(fields)
    ensures UniqueKeys(SettledFields(fields))
    ensures forall f | f in SettledFields(fields) :: exists i | 0 <= i < |fields| :: fields[i].key == f.key
    ensures PrintMembers(fields) == "" <==> SettledFields(fields) == []
  {
    if fields != [] {
      SettledKeys(fields[1..]);
      forall f | f in SettledFields(fields[1..])
        ensures exists i | 1 <= i < |fields| :: fields[i].key == f.key
      {
        var i :| 0 <= i < |fields[1..]| && fields[1..][i].key == f.key;
        assert fields[i + 1].key == f.key;
      }
    }
  }

  lemma {:induction false} PutAllNew(fields: seq<Field>, members: seq<Field>)
    requires UniqueKeys(fields + members)
    ensures PutAll(fields, members) == fields + members
    decreases |members|
  {
    if members != [] {
      forall g | g in fields
        ensures g.key != members[0].key
      {
        var i :| 0 <= i < |fields| && fields[i] == g;
        assert (fields + members)[i].key != (fields + members)[|fields|].key;
      }
      PutNew(fields, members[0]);
      assert fields + [members[0]] + members[1..] == fields + members;
      PutAllNew(fields + [members[0]], members[1..]);
    } else {
      assert fields + members == fields;
    }
  }

  lemma ReadObject(fields: seq<Field>, rest: string)
    requires UniqueKeys(fields) && (forall i | 0 <= i < |fields| :: Valid(fields[i].val)) && Stops(rest)
    ensures ReadValue("{" + PrintMembers(fields) + "}" + rest) == Ok(Obj(SettledFields(fields)), rest)
    decreases fields, 1
  {
    hide PrintMembers, SettledFields, ReadMembers, ReadValue, UniqueKeys, PutAll, Valid;
    SettledKeys(fields);
    if SettledFields(fields) == [] {
      assert "{" + PrintMembers(fields) + "}" + rest == "{" + ("}" + rest);
      ReadEmptyObject(rest);
    } else {
      var t := PrintMembers(fields) + "}" + rest;
      assert "{" + PrintMembers(fields) + "}" + rest == "{" + t;
      MembersStart(fields);
      ReadBrace(t);
      ReadPrintedMembers(fields, rest);
      assert [] + SettledFields(fields) == SettledFields(fields);
      PutAllNew([], SettledFields(fields));
    }
  }

  lemma ReadEmptyObject(rest: string)
    ensures ReadValue("{" + ("}" + rest)) == Ok(Obj([]), rest)
  {
    hide ReadMembers, ReadItems, ReadChars, IsNumber;
    var s := "{" + ("}" + rest);
    assert SkipBlanks(s) == s && s[1..] == "}" + rest && s[1..][1..] == rest;
  }

  lemma ReadBrace(t: string)
    requires t != "" && t[0] == '"'
    ensures ReadValue("{" + t)
        == (var r := ReadMembers(t); if r.Fail? then Fail else Ok(Obj(PutAll([], r.val)), r.rest))
  {
    hide ReadMembers, ReadItems, ReadChars, IsNumber, PutAll;
    var s := "{" + t;
    assert SkipBlanks(s) == s && s[1..] == t && SkipBlanks(t) == t;
  }

  lemma {:induction false} MembersStart(fields: seq<Field>)
    requires SettledFields(fields) != []
    ensures PrintMembers(fields) != "" && PrintMembers(fields)[0] == '"'
  {
    if fields[0].val.Undefined? { MembersStart(fields[1..]); }
  }

  lemma {:induction false} ReadPrintedMembers(fields: seq<Field>, rest: string)
    requires SettledFields(fields) != [] && UniqueKeys(fields)
    requires (forall i | 0 <= i < |fields| :: Valid(fields[i].val)) && Stops(rest)
    ensures ReadMembers(PrintMembers(fields) + "}" + rest) == Ok(SettledFields(fields), rest)
    decreases fields, 0
  {
    hide ReadMember, ReadMembers, Valid, Print, Settled, Quoted, PrintMembers;
    if fields[0].val.Undefined? {
      MembersSkip(fields);
      ReadPrintedMembers(fields[1..], rest);
    } else {
      var key, val, more := fields[0].key, fields[0].val, PrintMembers(fields[1..]);
      var tail := if more == "" then "}" + rest else "," + (more + "}" + rest);
      SettledKeys(fields[1..]);
      ReadPrinted(val, tail);
      ReadOneMember(key, val, tail);
      MembersSplit(fields, rest);
      MemberThen(Quoted(key) + ":" + Print(val) + tail, Field(key, Settled(val)), tail);
      if more == "" {
        assert tail[1..] == rest;
        assert SettledFields(fields) == [Field(key, Settled(val))];
      } else {
        ReadPrintedMembers(fields[1..], rest);
        assert tail[1..] == more + "}" + rest;
      }
    }
  }

  lemma MembersSkip(fields: seq<Field>)
    requires fields != [] && fields[0].val.Undefined?
    ensures PrintMembers(fields) == PrintMembers(fields[1..])
  {
    hide Print, Quoted;
  }

  /** The first member of a printed object, and what follows it. */
  lemma MembersSplit(fields: seq<Field>, rest: string)
    requires fields != [] && !fields[0].val.Undefined?
    ensures var key, val, more := fields[0].key, fields[0].val, PrintMembers(fields[1..]);
            PrintMembers(fields) + "}" + rest
            == Quoted(key) + ":" + Print(val) + if more == "" then "}" + rest else "," + (more + "}" + rest)
  {
    hide Print, Quoted;
  }

  lemma MemberThen(s: string, f: Field, tail: string)
    requires ReadMember(s) == Ok(f, tail) && tail != "" && tail[0] in ",}"
    ensures var r, more := ReadMembers(s), ReadMembers(tail[1..]);
            && (tail[0] == '}' ==> r == Ok([f], tail[1..]))
            && (tail[0] == ',' && more.Ok? ==> r == Ok([f] + more.val, more.rest))
  {
    hide ReadMember;
    assert SkipBlanks(tail) == tail;
  }

  lemma ReadOneMember(key: string, val: Value, tail: string)
    requires ReadValue(Print(val) + tail) == Ok(Settled(val), tail)
    ensures ReadMember(Quoted(key) + ":" + Print(val) + tail) == Ok(Field(key, Settled(val)), tail)
  {
    hide ReadChars, Print, Settled, ReadValue, Quoted, EscapedAll;
    var s := Quoted(key) + ":" + Print(val) + tail;
    var after := ":" + Print(val) + tail;
    QuotedFirst(key, after);
    assert s == Quoted(key) + after;
    assert SkipBlanks(s) == s && SkipBlanks(after) == after;
    assert after[1..] == Print(val) + tail;
  }

  lemma QuotedFirst(key: string, after: string)
    ensures var s := Quoted(key) + after;
            s[0] == '"' && ReadChars(s[1..]) == Ok(key, after)
  {
    hide ReadChars;
    ReadEscapedAll(key, after);
    assert Quoted(key) + after == "\"" + (EscapedAll(key) + "\"" + after);
  }

  /** Reading back what was printed. */
  lemma ParsePrinted(v: Value)
    requires Valid(v)
    ensures Parse(Print(v)) == Some(Settled(v))
  {
    ReadPrinted(v, "");
    assert Print(v) + "" == Print(v);
  }

  // ----- the texts

  lemma EscapeMeans(c: char)
    ensures c == '"' ==> Escaped(c) == ['\\', '"']
    ensures c == '\\' ==> Escaped(c) == ['\\', '\\']
    ensures c == '\n' ==> Escaped(c) == ['\\', 'n']
    ensures c == '\r' ==> Escaped(c) == ['\\', 'r']
    ensures c == '\t' ==> Escaped(c) == ['\\', 't']
    ensures c >= ' ' && c != '"' && c != '\\' ==> Escaped(c) == [c]
    ensures c < ' ' && ShortEscape(c as int).None? ==> |Escaped(c)| == 6 && Escaped(c)[..4] == "\\u00"
  {
  }

  /** The text of each kind of value, from the texts of its parts. */
  lemma PrintMeans(v: Value)
    ensures Print(Null) == "null" && Print(Bool(true)) == "true" && Print(Bool(false)) == "false"
    ensures v.Num? ==> Print(v) == v.text
    ensures v.Str? ==> Print(v) == "\"" + EscapedAll(v.s) + "\""
  {
    hide EscapedAll;
  }

  lemma PrintArrayMeans(a: Value, rest: seq<Value>)
    ensures Print(Arr([])) == "[]" && Print(Arr([a])) == "[" + Print(a) + "]"
    ensures rest != [] ==> Print(Arr([a] + rest)) == "[" + Print(a) + "," + Print(Arr(rest))[1..]
  {
    ItemsMean(a, rest);
    hide PrintItems;
    assert Print(Arr(rest))[1..] == PrintItems(rest) + "]";
    assert "[" + (Print(a) + "," + PrintItems(rest)) + "]" == "[" + Print(a) + "," + (PrintItems(rest) + "]");
  }

  lemma ItemsMean(a: Value, rest: seq<Value>)
    ensures PrintItems([]) == "" && PrintItems([a]) == Print(a)
    ensures rest != [] ==> PrintItems([a] + rest) == Print(a) + "," + PrintItems(rest)
  {
    hide Print;
    assert ([a] + rest)[1..] == rest;
  }

  lemma PrintObjectMeans(k: string, a: Value, more: seq<Field>)
    ensures Print(Obj([])) == "{}"
    ensures Print(Obj([Field(k, Undefined)] + more)) == Print(Obj(more))
    ensures !a.Undefined? ==>
              Print(Obj([Field(k, a)] + more))
              == "{" + Quoted(k) + ":" + Print(a)
                 + (if PrintMembers(more) == "" then "" else ",") + Print(Obj(more))[1..]
  {
    MembersMean(k, a, more);
    MembersMean(k, Undefined, more);
    hide PrintMembers, Quoted;
    assert Print(Obj(more))[1..] == PrintMembers(more) + "}";
  }

  lemma MembersMean(k: string, a: Value, more: seq<Field>)
    ensures PrintMembers([]) == ""
    ensures a.Undefined? ==> PrintMembers([Field(k, a)] + more) == PrintMembers(more)
    ensures !a.Undefined? ==>
              PrintMembers([Field(k, a)] + more)
              == Quoted(k) + ":" + Print(a) + (if PrintMembers(more) == "" then "" else "," + PrintMembers(more))
  {
    hide Print, Quoted;
    assert ([Field(k, a)] + more)[1..] == more;
  }
}
