/** The two hand-written lexers: `stripCommentsPreserveStrings`
    (scripts/desktop-helper-boundary/check-desktop-helper-boundary.ts) and
    `cleanLines` (scripts/codex-shape-scrub/check-codex-shape-scrub.ts).

    Both read a source one token at a time: a token is one character, or two for
    a comment delimiter or an escape.  What they write for a token differs. */
module Lexers {
  import opened SourceText
  import opened Json

  datatype Mode = Code | Line | Block | Quote(q: char)

  predicate IsQuote(c: char) {
    c == '"' || c == '\'' || c == '`'
  }

  /** How many characters the next token has. */
  function Width(m: Mode, s: string): (n: nat)
    requires s != ""
    ensures 1 <= n <= 2 && n <= |s|
  {
    match m
    case Code => if |s| > 1 && s[0] == '/' && (s[1] == '/' || s[1] == '*') then 2 else 1
    case Line => 1
    case Block => if |s| > 1 && s[0] == '*' && s[1] == '/' then 2 else 1
    case Quote(q) => if |s| > 1 && s[0] == '\\' then 2 else 1
  }

  /** The mode after that token. */
  function After(m: Mode, t: string): Mode
    requires 1 <= |t| <= 2
  {
    match m
    case Code =>
      if |t| == 2 then (if t[1] == '/' then Line else Block)
      else if IsQuote(t[0]) then Quote(t[0]) else Code
    case Line => if t[0] == '\n' then Code else Line
    case Block => if |t| == 2 then Code else Block
    case Quote(q) => if t[0] == q && t[0] != '\\' then Code else m
  }

  /** The mode the flags of the two lexers stand for. */
  function ModeOf(inBlockComment: bool, inString: Option<char>): Mode {
    if inBlockComment then Block else if inString.Some? then Quote(inString.value) else Code
  }

  function BlankExceptNewline(c: char): char {
    if c == '\n' then '\n' else ' '
  }

  // ----- stripCommentsPreserveStrings

  function StripToken(m: Mode, t: string): string
    requires 1 <= |t| <= 2
  {
    match m
    case Code => if |t| == 2 then "  " else t
    case Line => [BlankExceptNewline(t[0])]
    case Block => if |t| == 2 then "  " else [BlankExceptNewline(t[0])]
    case Quote(_) => t
  }

  function Strip(m: Mode, s: string): string
    decreases |s|
  {
    if s == "" then ""
    else StripToken(m, s[..Width(m, s)]) + Strip(After(m, s[..Width(m, s)]), s[Width(m, s)..])
  }

  method StripCommentsPreserveStrings(source: string) returns (out: string)
    ensures out == Strip(Code, source)
  {
    hide Strip;
    out := "";
    var inBlockComment := false;
    var inString: Option<char> := None;
    var i := 0;
    assert source[0..] == source;
    while i < |source|
      invariant i <= |source|
      invariant !(inBlockComment && inString.Some?) && (inString.Some? ==> IsQuote(inString.value))
      invariant out + Strip(ModeOf(inBlockComment, inString), source[i..]) == Strip(Code, source)
    {
      var ch := source[i];
      ghost var m, before := ModeOf(inBlockComment, inString), out;
      ghost var t := TokenAt(m, source, i);
      StripStep(m, source, i, out);
      if inBlockComment {
        if ch == '*' && i + 1 < |source| && source[i + 1] == '/' {
          out := out + "  ";
          i := i + 1;
          inBlockComment := false;
        } else {
          out := out + [if ch == '\n' then '\n' else ' '];
        }
        assert out == before + StripToken(m, t);
      } else if inString.Some? {
        if ch == '\\' && i + 1 < |source| {
          out := out + [ch, source[i + 1]];
          i := i + 1;
        } else {
          out := out + [ch];
          if ch == inString.value { inString := None; }
        }
        assert out == before + StripToken(m, t);
      } else if ch == '/' && i + 1 < |source| && source[i + 1] == '/' {
        out := out + "  ";
        assert out == before + StripToken(m, t);
        i := i + 1;
        while i + 1 < |source| && source[i + 1] != '\n'
          invariant i < |source|
          invariant out + Strip(Line, source[i + 1..]) == Strip(Code, source)
        {
          StripStep(Line, source, i + 1, out);
          out := out + " ";
          i := i + 1;
        }
        LineEnds(source[i + 1..]);
      } else if ch == '/' && i + 1 < |source| && source[i + 1] == '*' {
        out := out + "  ";
        i := i + 1;
        inBlockComment := true;
        assert out == before + StripToken(m, t);
      } else if IsQuote(ch) {
        inString := Some(ch);
        out := out + [ch];
      } else {
        out := out + [ch];
      }
      i := i + 1;
    }
    StripNothing();
    assert source[i..] == "" && out + "" == out;
  }

  lemma StripNothing()
    ensures forall m :: Strip(m, "") == ""
  {
  }

  /** The next token of a source, spelled out. */
  function TokenAt(m: Mode, source: string, i: nat): (t: string)
    requires i < |source|
    ensures |t| == 1 || (|t| == 2 && i + 1 < |source|)
  {
    var two := i + 1 < |source| &&
      match m
      case Code => source[i] == '/' && (source[i + 1] == '/' || source[i + 1] == '*')
      case Line => false
      case Block => source[i] == '*' && source[i + 1] == '/'
      case Quote(_) => source[i] == '\\';
    if two then [source[i], source[i + 1]] else [source[i]]
  }

  lemma TokenIs(m: Mode, source: string, i: nat)
    requires i < |source|
    ensures var s, t := source[i..], TokenAt(m, source, i);
            Width(m, s) == |t| && s[..|t|] == t && s[|t|..] == source[i + |t|..]
  {
    assert source[i..][0] == source[i];
    assert i + 1 < |source| ==> source[i..][1] == source[i + 1];
  }

  lemma StripStep(m: Mode, source: string, i: nat, out: string)
    requires i < |source|
    ensures var t := TokenAt(m, source, i);
            out + Strip(m, source[i..]) == (out + StripToken(m, t)) + Strip(After(m, t), source[i + |t|..])
  {
    TokenIs(m, source, i);
  }

  /** At its end, a line comment is like code. */
  lemma LineEnds(s: string)
    requires s == "" || s[0] == '\n'
    ensures Strip(Line, s) == Strip(Code, s)
  {
  }

  // ----- cleanLines

  /** Strings, comments and template literals become blanks.  An escaped newline
      inside a string is blanked too. */
  function CleanToken(m: Mode, t: string): string
    requires 1 <= |t| <= 2
  {
    match m
    case Code => if |t| == 2 then "  " else if IsQuote(t[0]) then " " else t
    case Line => [BlankExceptNewline(t[0])]
    case Block => if |t| == 2 then "  " else [BlankExceptNewline(t[0])]
    case Quote(_) => if |t| == 2 then "  " else [BlankExceptNewline(t[0])]
  }

  function Clean(m: Mode, s: string): string
    decreases |s|
  {
    if s == "" then ""
    else CleanToken(m, s[..Width(m, s)]) + Clean(After(m, s[..Width(m, s)]), s[Width(m, s)..])
  }

  /** What `raw` keeps of a token: the second character of a comment delimiter is
      lost, and so is every slash of a line comment but the first. */
  function RawToken(m: Mode, t: string): string
    requires 1 <= |t| <= 2
  {
    match m
    case Code => t[..1]
    case Line => if t[0] == '/' then "" else t
    case Block => t[..1]
    case Quote(_) => t
  }

  datatype CleanedLine = CleanedLine(raw: string, cleaned: string)

  /** The lines from `s` on, when `raw` and `cleaned` hold what was read of the
      current one. */
  function Scrub(m: Mode, s: string, raw: string, cleaned: string): seq<CleanedLine>
    decreases |s|
  {
    if s == "" then (if raw == "" && cleaned == "" then [] else [CleanedLine(raw, cleaned)])
    else
      var w := Width(m, s);
      if w == 1 && s[0] == '\n' then [CleanedLine(raw, cleaned)] + Scrub(After(m, s[..1]), s[1..], "", "")
      else Scrub(After(m, s[..w]), s[w..], raw + RawToken(m, s[..w]), cleaned + CleanToken(m, s[..w]))
  }

  lemma ScrubStep(m: Mode, source: string, i: nat, out: seq<CleanedLine>, raw: string, cleaned: string)
    requires i < |source|
    ensures var t := TokenAt(m, source, i);
            out + Scrub(m, source[i..], raw, cleaned)
            == if source[i] == '\n'
                then (out + [CleanedLine(raw, cleaned)]) + Scrub(After(m, t), source[i + 1..], "", "")
               else out + Scrub(After(m, t), source[i + |t|..], raw + RawToken(m, t), cleaned + CleanToken(m, t))
  {
    TokenIs(m, source, i);
  }

  lemma ScrubEnds(out: seq<CleanedLine>, raw: string, cleaned: string)
    ensures forall m ::
              out + Scrub(m, "", raw, cleaned)
              == if raw == "" && cleaned == "" then out else out + [CleanedLine(raw, cleaned)]
  {
  }

  /** A line comment read as such from its first slash on. */
  lemma SlashSlash(source: string, i: nat, raw: string, cleaned: string)
    requires i + 1 < |source| && source[i] == '/' && source[i + 1] == '/'
    ensures Scrub(Code, source[i..], raw, cleaned) == Scrub(Line, source[i..], raw + "/", cleaned)
  {
    hide Scrub;
    ScrubStep(Code, source, i, [], raw, cleaned);
    ScrubStep(Line, source, i, [], raw + "/", cleaned);
    ScrubStep(Line, source, i + 1, [], raw + "/", cleaned + " ");
    assert forall x: seq<CleanedLine> :: [] + x == x;
    assert raw + "/" + "" == raw + "/" && cleaned + " " + " " == cleaned + "  ";
    assert RawToken(Code, "//") == "/";
  }

  lemma LineScrubEnds(s: string, raw: string, cleaned: string)
    requires s == "" || s[0] == '\n'
    ensures Scrub(Line, s, raw, cleaned) == Scrub(Code, s, raw, cleaned)
  {
  }

  method CleanLines(source: string) returns (out: seq<CleanedLine>)
    ensures out == Scrub(Code, source, "", "")
  {
    hide Scrub;
    out := [];
    var inBlockComment := false;
    var inString: Option<char> := None;
    var lineRaw, lineCleaned := "", "";
    var index := 0;
    assert source[0..] == source;
    while index < |source|
      invariant index <= |source|
      invariant !(inBlockComment && inString.Some?) && (inString.Some? ==> IsQuote(inString.value))
      invariant out + Scrub(ModeOf(inBlockComment, inString), source[index..], lineRaw, lineCleaned)
          == Scrub(Code, source, "", "")
    {
      var ch := source[index];
      ScrubStep(ModeOf(inBlockComment, inString), source, index, out, lineRaw, lineCleaned);
      ghost var m, raw0, cleaned0 := ModeOf(inBlockComment, inString), lineRaw, lineCleaned;
      ghost var t := TokenAt(m, source, index);
      lineRaw := lineRaw + [ch];
      if ch == '\n' {
        assert lineRaw[..|lineRaw| - 1] == raw0;
        out := out + [CleanedLine(lineRaw[..|lineRaw| - 1], lineCleaned)];
        lineRaw, lineCleaned := "", "";
      } else if inBlockComment {
        lineCleaned := lineCleaned + " ";
        if ch == '*' && index + 1 < |source| && source[index + 1] == '/' {
          lineCleaned := lineCleaned + " ";
          index := index + 1;
          inBlockComment := false;
        }
        assert lineRaw == raw0 + RawToken(m, t) && lineCleaned == cleaned0 + CleanToken(m, t);
      } else if inString.Some? {
        lineCleaned := lineCleaned + " ";
        if ch == '\\' {
          if index + 1 < |source| {
            lineRaw := lineRaw + [source[index + 1]];
            lineCleaned := lineCleaned + " ";
            index := index + 1;
          }
        } else if ch == inString.value {
          inString := None;
        }
        assert lineRaw == raw0 + RawToken(m, t) && lineCleaned == cleaned0 + CleanToken(m, t);
      } else if ch == '/' && index + 1 < |source| && source[index + 1] == '/' {
        SlashSlash(source, index, raw0, lineCleaned);
        while index < |source| && source[index] != '\n'
          invariant index <= |source|
          invariant out + Scrub(Line, source[index..], lineRaw, lineCleaned) == Scrub(Code, source, "", "")
        {
          ScrubStep(Line, source, index, out, lineRaw, lineCleaned);
          if source[index] != ch { lineRaw := lineRaw + [source[index]]; } else { assert lineRaw + "" == lineRaw; }
          lineCleaned := lineCleaned + " ";
          index := index + 1;
        }
        LineScrubEnds(source[index..], lineRaw, lineCleaned);
        index := index - 1;
      } else if ch == '/' && index + 1 < |source| && source[index + 1] == '*' {
        inBlockComment := true;
        lineCleaned := lineCleaned + "  ";
        index := index + 1;
        assert lineRaw == raw0 + RawToken(m, t) && lineCleaned == cleaned0 + CleanToken(m, t);
      } else if IsQuote(ch) {
        inString := Some(ch);
        lineCleaned := lineCleaned + " ";
        assert lineRaw == raw0 + RawToken(m, t) && lineCleaned == cleaned0 + CleanToken(m, t);
      } else {
        lineCleaned := lineCleaned + [ch];
        assert lineRaw == raw0 + RawToken(m, t) && lineCleaned == cleaned0 + CleanToken(m, t);
      }
      index := index + 1;
    }
    ScrubEnds(out, lineRaw, lineCleaned);
    assert source[index..] == "";
    if lineRaw != "" || lineCleaned != "" {
      out := out + [CleanedLine(lineRaw, lineCleaned)];
    }
  }
}
