/** What the two lexers guarantee, and how they are related. */
module LexerFacts {
  import opened SourceText
  import opened Json
  import opened Lexers

  ghost predicate Proper(m: Mode) {
    m.Quote? ==> IsQuote(m.q)
  }

  // ----- stripping keeps every offset

  lemma {:induction false} StripKeepsOffsets(m: Mode, s: string)
    ensures |Strip(m, s)| == |s|
    ensures forall i | 0 <= i < |s| :: Strip(m, s)[i] == s[i] || (Strip(m, s)[i] == ' ' && s[i] != '\n')
    decreases |s|
  {
    if s != "" {
      var w := Width(m, s);
      StripKeepsOffsets(After(m, s[..w]), s[w..]);
    }
  }

  /** Comments become blanks and nothing else moves, so a position in the stripped
      text is the same position in the source, and names one offset. */
  lemma StrippedPositions(source: string, i: nat, j: nat)
    requires i <= |source| && j <= |source|
    ensures var scan := Strip(Code, source);
            && |scan| == |source|
            && Position(scan, i) == Position(source, i)
            && (Position(scan, i) == Position(source, j) ==> i == j)
  {
    StripKeepsOffsets(Code, source);
    SamePositions(source, Strip(Code, source), i);
    PositionInjective(source, i, j);
  }

  /** What `collectCommandUses` reports for a match at `i` of the stripped text:
      the line and column found there are those of the source, the snippet cut
      from the source is that very line, and the character matched is the
      source's own. */
  lemma ReportedUse(source: string, i: nat)
    requires i < |source| && i < |Strip(Code, source)| && Strip(Code, source)[i] != ' '
        && Strip(Code, source)[i] != '\n'
    ensures var (line, column) := Position(Strip(Code, source), i);
            && line <= |LinesOf(source)| && LinesOf(source)[line - 1] == LineSlice(source, i)
            && column <= |LinesOf(source)[line - 1]|
            && LinesOf(source)[line - 1][column - 1] == Strip(Code, source)[i]
  {
    hide Strip, Position, LinesOf, LineSlice;
    StripKeepsOffsets(Code, source);
    SamePositions(source, Strip(Code, source), i);
    PositionMeans(source, i);
  }

  // ----- stripping twice

  /** The mode in which the stripped text is read where the source is read in
      mode `m`: comments are gone. */
  function Uncommented(m: Mode): Mode {
    if m.Quote? then m else Code
  }

  lemma StripHead(m: Mode, s: string)
    requires s != ""
    ensures Strip(m, s) != "" && (Strip(m, s)[0] == s[0] || Strip(m, s)[0] == ' ')
  {
    StripKeepsOffsets(m, s);
  }

  /** Blanks and newlines in code stand for themselves. */
  lemma StripBlank(c: char, t: string)
    requires c == ' ' || c == '\n'
    ensures Strip(Code, [c] + t) == [c] + Strip(Code, t)
  {
    var s := [c] + t;
    assert s[..1] == [c] && s[1..] == t;
  }

  lemma {:induction false} StripStripped(m: Mode, s: string)
    requires Proper(m)
    ensures Strip(Uncommented(m), Strip(m, s)) == Strip(m, s)
    decreases |s|
  {
    if s != "" {
      var w := Width(m, s);
      var token, m', rest := s[..w], After(m, s[..w]), s[w..];
      StripStripped(m', rest);
      var out, tail := StripToken(m, token), Strip(m', rest);
      assert Strip(m, s) == out + tail;
      if m.Quote? || (m.Code? && w == 1) {
        if rest != "" { StripHead(m', rest); }
        StripOneToken(m, token, tail);
      } else {
        StripBlanks(out, tail);
      }
    }
  }

  lemma StripBlanks(out: string, tail: string)
    requires 1 <= |out| <= 2 && forall i | 0 <= i < |out| :: out[i] == ' ' || out[i] == '\n'
    ensures Strip(Code, out + tail) == out + Strip(Code, tail)
  {
    hide Strip;
    StripBlank(out[0], out[1..] + tail);
    assert out + tail == [out[0]] + (out[1..] + tail);
    if |out| == 2 {
      StripBlank(out[1], tail);
      assert out[1..] + tail == [out[1]] + tail;
    } else {
      assert out[1..] + tail == tail;
    }
  }

  /** A token that is kept is a token again in front of the stripped rest. */
  lemma StripOneToken(m: Mode, token: string, tail: string)
    requires 1 <= |token| <= 2 && Proper(m)
    requires (m.Code? && |token| == 1 && (token[0] == '/' && tail != "" ==> tail[0] != '/' && tail[0] != '*'))
          || (m.Quote? && (|token| == 2 <==> token[0] == '\\' && (|token| == 2 || tail != "")))
    ensures Strip(m, token + tail) == token + Strip(After(m, token), tail)
  {
    var s := token + tail;
    assert s[..|token|] == token && s[|token|..] == tail;
    assert Width(m, s) == |token|;
  }

  /** Stripping comments is idempotent, unterminated comments and strings
      included. */
  lemma StripIdempotent(source: string)
    ensures Strip(Code, Strip(Code, source)) == Strip(Code, source)
  {
    StripStripped(Code, source);
  }

  // ----- the two lexers agree

  /** Blanks the string literals of a text without comments, quotes included;
      newlines stay. */
  function BlankStrings(inString: Option<char>, t: string): string
    decreases |t|
  {
    if t == "" then ""
    else if inString.Some? && t[0] == '\\' && |t| > 1 then
      [' ', BlankExceptNewline(t[1])] + BlankStrings(inString, t[2..])
    else if inString.Some? then
      [BlankExceptNewline(t[0])] + BlankStrings(if t[0] == inString.value then None else inString, t[1..])
    else if IsQuote(t[0]) then " " + BlankStrings(Some(t[0]), t[1..])
    else [t[0]] + BlankStrings(None, t[1..])
  }

  /** No backslash stands before a newline inside a string literal. */
  predicate NoEscapedNewline(m: Mode, s: string)
    decreases |s|
  {
    s != "" ==>
      var t := s[..Width(m, s)];
      (m.Quote? && |t| == 2 ==> t[1] != '\n') && NoEscapedNewline(After(m, t), s[|t|..])
  }

  function StringOf(m: Mode): Option<char> {
    if m.Quote? then Some(m.q) else None
  }

  lemma BlankPlain(t: string, tail: string)
    requires 1 <= |t| <= 2 && forall i | 0 <= i < |t| :: !IsQuote(t[i])
    ensures BlankStrings(None, t + tail) == t + BlankStrings(None, tail)
  {
    var s := t + tail;
    if |t| == 1 {
      assert s[1..] == tail;
    } else {
      assert s[1..] == [t[1]] + tail && s[1..][1..] == tail;
    }
  }

  lemma BlankToken(m: Mode, t: string, tail: string)
    requires 1 <= |t| <= 2 && Proper(m)
    requires (m.Code? && |t| == 1) || (m.Quote? && (|t| == 2 <==> t[0] == '\\' && (|t| == 2 || tail != "")))
    requires m.Quote? && |t| == 2 ==> t[1] != '\n'
    ensures BlankStrings(StringOf(m), t + tail) == CleanToken(m, t) + BlankStrings(StringOf(After(m, t)), tail)
  {
    var s := t + tail;
    assert s[|t|..] == tail;
  }

  lemma {:induction false} CleanIsBlanked(m: Mode, s: string)
    requires Proper(m) && NoEscapedNewline(m, s)
    ensures Clean(m, s) == BlankStrings(StringOf(m), Strip(m, s))
    decreases |s|
  {
    if s != "" {
      var w := Width(m, s);
      var token, m', rest := s[..w], After(m, s[..w]), s[w..];
      CleanIsBlanked(m', rest);
      var out, tail := StripToken(m, token), Strip(m', rest);
      StripKeepsOffsets(m', rest);
      if m.Quote? || (m.Code? && w == 1) {
        BlankToken(m, token, tail);
      } else {
        BlankPlain(out, tail);
      }
    }
  }

  // ----- lines

  function CleanedTexts(lines: seq<CleanedLine>): (r: seq<string>)
    ensures |r| == |lines| && forall i | 0 <= i < |lines| :: r[i] == lines[i].cleaned
  {
    if lines == [] then [] else [lines[0].cleaned] + CleanedTexts(lines[1..])
  }

  function RawTexts(lines: seq<CleanedLine>): (r: seq<string>)
    ensures |r| == |lines| && forall i | 0 <= i < |lines| :: r[i] == lines[i].raw
  {
    if lines == [] then [] else [lines[0].raw] + RawTexts(lines[1..])
  }

  /** Text without newlines joins the current line. */
  lemma {:induction false} LinesSkip(line: string, t: string, rest: string)
    requires forall i | 0 <= i < |t| :: t[i] != '\n'
    ensures LinesFrom(line, t + rest) == LinesFrom(line + t, rest)
    decreases |t|
  {
    if t == "" {
      assert t + rest == rest && line + t == line;
    } else {
      assert (t + rest)[1..] == t[1..] + rest;
      LinesSkip(line + [t[0]], t[1..], rest);
      assert line + [t[0]] + t[1..] == line + t;
    }
  }

  lemma LinesBreak(line: string, rest: string)
    ensures LinesFrom(line, "\n" + rest) == [line] + LinesFrom("", rest)
  {
    assert ("\n" + rest)[1..] == rest;
  }

  lemma CleanTokenNewlines(m: Mode, t: string)
    requires 1 <= |t| <= 2 && !(|t| == 1 && t[0] == '\n') && (m == Line ==> |t| == 1)
    ensures forall i | 0 <= i < |CleanToken(m, t)| :: CleanToken(m, t)[i] != '\n'
  {
  }

  lemma {:induction false} ScrubCleaned(m: Mode, s: string, raw: string, cleaned: string)
    requires (raw == "" <==> cleaned == "") && (m == Line ==> raw != "")
    ensures CleanedTexts(Scrub(m, s, raw, cleaned)) == LinesFrom(cleaned, Clean(m, s))
    decreases |s|
  {
    if s != "" {
      var w := Width(m, s);
      var t, m', rest := s[..w], After(m, s[..w]), s[w..];
      if w == 1 && s[0] == '\n' {
        assert t == "\n" && CleanToken(m, t) == "\n";
        LinesBreak(cleaned, Clean(m', rest));
        ScrubCleaned(m', rest, "", "");
      } else {
        CleanTokenNewlines(m, t);
        LinesSkip(cleaned, CleanToken(m, t), Clean(m', rest));
        ScrubCleaned(m', rest, raw + RawToken(m, t), cleaned + CleanToken(m, t));
      }
    }
  }

  lemma LinesOfFrom(s: string)
    ensures LinesOf(s) == LinesFrom("", s)
  {
  }

  // ----- counting newlines

  function Newlines(s: string): nat {
    if s == "" then 0 else (if s[0] == '\n' then 1 else 0) + Newlines(s[1..])
  }

  function TotalLength(lines: seq<string>): nat {
    if lines == [] then 0 else |lines[0]| + TotalLength(lines[1..])
  }

  lemma {:induction false} NewlinesAppend(s: string, t: string)
    ensures Newlines(s + t) == Newlines(s) + Newlines(t)
  {
    if s == "" {
      assert s + t == t;
    } else {
      assert (s + t)[1..] == s[1..] + t;
      NewlinesAppend(s[1..], t);
    }
  }

  lemma {:induction false} NewlinesSame(s: string, t: string)
    requires SameNewlines(s, t)
    ensures Newlines(s) == Newlines(t)
  {
    if s != "" { NewlinesSame(s[1..], t[1..]); }
  }

  /** The lines hold everything but the newlines. */
  lemma {:induction false} LinesTotal(line: string, s: string)
    ensures TotalLength(LinesFrom(line, s)) + Newlines(s) == |line| + |s|
    decreases |s|
  {
    if s != "" {
      if s[0] == '\n' { LinesTotal("", s[1..]); } else { LinesTotal(line + [s[0]], s[1..]); }
    }
  }

  lemma NewlinesOfToken(t: string)
    requires 1 <= |t| <= 2
    ensures Newlines(t) == (if t[0] == '\n' then 1 else 0) + (if |t| == 2 && t[1] == '\n' then 1 else 0)
  {
    if |t| == 2 { assert t[1..][1..] == ""; }
  }

  /** Cleaning keeps the length, and loses exactly the escaped newlines. */
  lemma {:induction false} CleanCounts(m: Mode, s: string)
    ensures |Clean(m, s)| == |s| && Newlines(Clean(m, s)) <= Newlines(s)
    ensures Newlines(Clean(m, s)) == Newlines(s) <==> NoEscapedNewline(m, s)
    decreases |s|
  {
    if s != "" {
      var w := Width(m, s);
      var t, m', rest := s[..w], After(m, s[..w]), s[w..];
      CleanCounts(m', rest);
      assert s == t + rest;
      NewlinesAppend(t, rest);
      NewlinesAppend(CleanToken(m, t), Clean(m', rest));
      NewlinesOfToken(t);
      NewlinesOfToken(CleanToken(m, t));
    }
  }

  lemma {:induction false} BlankKeepsOffsets(inString: Option<char>, t: string)
    ensures SameNewlines(t, BlankStrings(inString, t))
    decreases |t|
  {
    if t != "" {
      if inString.Some? && t[0] == '\\' && |t| > 1 {
        BlankKeepsOffsets(inString, t[2..]);
      } else if inString.Some? {
        BlankKeepsOffsets(if t[0] == inString.value then None else inString, t[1..]);
      } else {
        BlankKeepsOffsets(if IsQuote(t[0]) then Some(t[0]) else None, t[1..]);
      }
    }
  }

  /** The cleaned lines of `cleanLines` are the lines of the comment-stripped text
      with its strings blanked, line for line and column for column, exactly when
      no string has a backslash before a newline. */
  lemma LexersAgreeIff(source: string)
    ensures CleanedTexts(Scrub(Code, source, "", "")) == LinesOf(BlankStrings(None, Strip(Code, source)))
       <==> NoEscapedNewline(Code, source)
  {
    var scan := Strip(Code, source);
    var blanked := BlankStrings(None, scan);
    ScrubCleaned(Code, source, "", "");
    LinesOfFrom(Clean(Code, source));
    LinesOfFrom(blanked);
    CleanCounts(Code, source);
    StripKeepsOffsets(Code, source);
    BlankKeepsOffsets(None, scan);
    NewlinesSame(source, scan);
    NewlinesSame(scan, blanked);
    LinesTotal("", Clean(Code, source));
    LinesTotal("", blanked);
    if NoEscapedNewline(Code, source) { CleanIsBlanked(Code, source); }
  }

  // ----- the raw lines

  function Raw(m: Mode, s: string): string
    decreases |s|
  {
    if s == "" then ""
    else RawToken(m, s[..Width(m, s)]) + Raw(After(m, s[..Width(m, s)]), s[Width(m, s)..])
  }

  lemma {:induction false} ScrubRaw(m: Mode, s: string, raw: string, cleaned: string)
    requires (raw == "" <==> cleaned == "") && (m == Line ==> raw != "") && NoEscapedNewline(m, s)
    ensures RawTexts(Scrub(m, s, raw, cleaned)) == LinesFrom(raw, Raw(m, s))
    decreases |s|
  {
    hide RawToken, CleanToken, After;
    if s == "" {
    } else {
      hide LinesFrom;
      var w := Width(m, s);
      var t, m', rest := s[..w], After(m, s[..w]), s[w..];
      if w == 1 && s[0] == '\n' {
        RawBreak(m, s);
        LinesBreak(raw, Raw(m', rest));
        ScrubRaw(m', rest, "", "");
      } else {
        RawSkip(m, s);
        LinesSkip(raw, RawToken(m, t), Raw(m', rest));
        ScrubRaw(m', rest, raw + RawToken(m, t), cleaned + CleanToken(m, t));
      }
    }
  }

  lemma RawBreak(m: Mode, s: string)
    requires s != "" && Width(m, s) == 1 && s[0] == '\n' && NoEscapedNewline(m, s)
    ensures s[..1] == "\n" && RawToken(m, s[..1]) == "\n"
    ensures After(m, s[..1]) != Line && NoEscapedNewline(After(m, s[..1]), s[1..])
  {
  }

  lemma RawSkip(m: Mode, s: string)
    requires s != "" && NoEscapedNewline(m, s) && !(Width(m, s) == 1 && s[0] == '\n')
    ensures var t := s[..Width(m, s)];
            && (forall i | 0 <= i < |RawToken(m, t)| :: RawToken(m, t)[i] != '\n')
            && CleanToken(m, t) != "" && (m != Line ==> RawToken(m, t) != "")
            && NoEscapedNewline(After(m, t), s[Width(m, s)..])
  {
  }

  /** Nothing is lost from a raw text exactly when nothing is a comment. */
  lemma {:induction false} RawCounts(m: Mode, s: string)
    requires NoEscapedNewline(m, s)
    ensures |Raw(m, s)| <= |s| && Newlines(Raw(m, s)) == Newlines(s)
    ensures m.Code? || m.Quote? ==> (|Raw(m, s)| == |s| <==> Strip(m, s) == s)
    ensures (m.Code? || m.Quote?) && |Raw(m, s)| == |s| ==> Raw(m, s) == s
    decreases |s|
  {
    hide RawToken, StripToken, Newlines, After;
    if s == "" {
      assert Raw(m, s) == s && Strip(m, s) == s;
    } else {
      hide NoEscapedNewline;
      var w := Width(m, s);
      var t, m', rest := s[..w], After(m, s[..w]), s[w..];
      TokenFacts(m, s);
      hide Width;
      RawCounts(m', rest);
      assert s == t + rest;
      NewlinesAppend(t, rest);
      NewlinesAppend(RawToken(m, t), Raw(m', rest));
      RawTokenCounts(m, t);
      StripSplit(m, t, Strip(m', rest), rest);
      assert Raw(m, s) == RawToken(m, t) + Raw(m', rest) && Strip(m, s) == StripToken(m, t) + Strip(m', rest);
      if m.Quote? || (m.Code? && w == 1) {
        assert |Raw(m, s)| == |s| <==> |Raw(m', rest)| == |rest|;
      }
    }
  }

  lemma TokenFacts(m: Mode, s: string)
    requires s != "" && NoEscapedNewline(m, s)
    ensures var w := Width(m, s);
            var t, m' := s[..w], After(m, s[..w]);
            && 1 <= w <= 2 && w <= |s| && NoEscapedNewline(m', s[w..])
            && (m == Line ==> w == 1)
            && (m.Code? && w == 2 ==> t[0] == '/' && (t[1] == '/' || t[1] == '*'))
            && (m.Block? && w == 2 ==> t == "*/")
            && (m.Quote? || (m.Code? && w == 1) ==> m'.Code? || m'.Quote?)
  {
  }

  lemma RawTokenCounts(m: Mode, t: string)
    requires 1 <= |t| <= 2 && (m == Line ==> |t| == 1)
    requires m.Code? && |t| == 2 ==> t[0] == '/' && (t[1] == '/' || t[1] == '*')
    requires m.Block? && |t| == 2 ==> t == "*/"
    ensures |RawToken(m, t)| <= |t| && Newlines(RawToken(m, t)) == Newlines(t)
    ensures m.Quote? || (m.Code? && |t| == 1) ==> RawToken(m, t) == t == StripToken(m, t)
    ensures m.Code? && |t| == 2 ==> |RawToken(m, t)| < |t|
  {
    NewlinesOfToken(t);
    if RawToken(m, t) != "" { NewlinesOfToken(RawToken(m, t)); }
  }

  lemma StripSplit(m: Mode, t: string, tail: string, rest: string)
    requires 1 <= |t| <= 2
    ensures m.Quote? || (m.Code? && |t| == 1) ==> (StripToken(m, t) + tail == t + rest <==> tail == rest)
    ensures m.Code? && |t| == 2 && t[0] == '/' ==> StripToken(m, t) + tail != t + rest
  {
    if m.Quote? || (m.Code? && |t| == 1) {
      assert (StripToken(m, t) + tail)[|t|..] == tail && (t + rest)[|t|..] == rest;
    } else if m.Code? && t[0] == '/' {
      assert (StripToken(m, t) + tail)[0] == ' ' && (t + rest)[0] == '/';
    }
  }

  predicate HasNewline(s: string) {
    exists i | 0 <= i < |s| :: s[i] == '\n'
  }

  lemma {:induction false} LinesHaveNone(line: string, s: string)
    requires !HasNewline(line)
    ensures forall k | 0 <= k < |LinesFrom(line, s)| :: !HasNewline(LinesFrom(line, s)[k])
    decreases |s|
  {
    if s != "" {
      if s[0] == '\n' { LinesHaveNone("", s[1..]); } else { LinesHaveNone(line + [s[0]], s[1..]); }
    }
  }

  /** A newline escaped in a string stays inside a raw line. */
  lemma {:induction false} RawNewline(m: Mode, s: string, raw: string, cleaned: string)
    requires !NoEscapedNewline(m, s) || HasNewline(raw)
    ensures exists k | 0 <= k < |RawTexts(Scrub(m, s, raw, cleaned))| ::
        HasNewline(RawTexts(Scrub(m, s, raw, cleaned))[k])
    decreases |s|
  {
    var lines := RawTexts(Scrub(m, s, raw, cleaned));
    if s == "" {
      assert lines[0] == raw;
    } else {
      var w := Width(m, s);
      var t, m', rest := s[..w], After(m, s[..w]), s[w..];
      if w == 1 && s[0] == '\n' {
        assert lines == [raw] + RawTexts(Scrub(m', rest, "", ""));
        if HasNewline(raw) {
          assert HasNewline(lines[0]);
        } else {
          RawNewline(m', rest, "", "");
          var k :| 0 <= k < |RawTexts(Scrub(m', rest, "", ""))| && HasNewline(RawTexts(Scrub(m', rest, "", ""))[k]);
          assert HasNewline(lines[k + 1]);
        }
      } else {
        RawGrows(m, s, raw);
        RawNewline(m', rest, raw + RawToken(m, t), cleaned + CleanToken(m, t));
      }
    }
  }

  lemma RawGrows(m: Mode, s: string, raw: string)
    requires s != "" && (!NoEscapedNewline(m, s) || HasNewline(raw)) && !(Width(m, s) == 1 && s[0] == '\n')
    ensures var t := s[..Width(m, s)];
            !NoEscapedNewline(After(m, t), s[Width(m, s)..]) || HasNewline(raw + RawToken(m, t))
  {
    var t := s[..Width(m, s)];
    var more := raw + RawToken(m, t);
    if HasNewline(raw) {
      var i :| 0 <= i < |raw| && raw[i] == '\n';
      assert more[i] == '\n';
    } else if NoEscapedNewline(After(m, t), s[Width(m, s)..]) {
      assert RawToken(m, t) == t && t[1] == '\n';
      assert more[|raw| + 1] == '\n';
    }
  }

  /** The raw lines are the source's lines exactly when the source has no comment
      and no newline escaped in a string: `text` and the columns of banned imports
      are off after one. */
  lemma RawIff(source: string)
    ensures RawTexts(Scrub(Code, source, "", "")) == LinesOf(source)
       <==> NoEscapedNewline(Code, source) && Strip(Code, source) == source
  {
    LinesOfFrom(source);
    if NoEscapedNewline(Code, source) {
      ScrubRaw(Code, source, "", "");
      RawCounts(Code, source);
      LinesTotal("", source);
      LinesTotal("", Raw(Code, source));
    } else {
      RawNewline(Code, source, "", "");
      LinesHaveNone("", source);
    }
  }

  // ----- positions of identifiers

  lemma {:induction false} CleanKeepsOffsets(m: Mode, s: string)
    requires NoEscapedNewline(m, s)
    ensures |Clean(m, s)| == |s|
    ensures forall i | 0 <= i < |s| :: Clean(m, s)[i] == s[i] || (Clean(m, s)[i] == ' ' && s[i] != '\n')
    decreases |s|
  {
    hide CleanToken, Width, After;
    if s != "" {
      var w := Width(m, s);
      CleanKeepsOffsets(After(m, s[..w]), s[w..]);
      CleanTokenKeeps(m, s);
      var c, rest := CleanToken(m, s[..w]), Clean(After(m, s[..w]), s[w..]);
      assert Clean(m, s) == c + rest;
      forall i | 0 <= i < |s|
        ensures Clean(m, s)[i] == s[i] || (Clean(m, s)[i] == ' ' && s[i] != '\n')
      {
        if i < w {
          assert c[i] == Clean(m, s)[i] && s[..w][i] == s[i];
        } else {
          assert rest[i - w] == Clean(m, s)[i] && s[w..][i - w] == s[i];
        }
      }
    }
  }

  lemma CleanTokenKeeps(m: Mode, s: string)
    requires s != "" && NoEscapedNewline(m, s)
    ensures var w := Width(m, s);
            |CleanToken(m, s[..w])| == w <= |s|
            && (forall i | 0 <= i < w ::
                CleanToken(m, s[..w])[i] == s[..w][i] || (CleanToken(m, s[..w])[i] == ' ' && s[..w][i] != '\n'))
            && NoEscapedNewline(After(m, s[..w]), s[w..])
  {
  }

  /** The line and column `scanFile` reports for an identifier are where its
      characters stand in the source. */
  lemma ReportedIdentifier(source: string, i: nat)
    requires NoEscapedNewline(Code, source) && i < |source| && source[i] != '\n'
    ensures var lines := CleanedTexts(Scrub(Code, source, "", ""));
            var (line, column) := Position(source, i);
            && line <= |lines| && column <= |lines[line - 1]|
            && (lines[line - 1][column - 1] == source[i] || lines[line - 1][column - 1] == ' ')
  {
    CleanKeepsOffsets(Code, source);
    SamePositions(source, Clean(Code, source), i);
    PositionMeans(Clean(Code, source), i);
    ScrubCleaned(Code, source, "", "");
    LinesOfFrom(Clean(Code, source));
  }

  /** Every character `scanFile` can match, that is, every one of a cleaned line
      that is not blank, is the source's character at that line and column, and at
      no other offset. */
  lemma ReportedBack(source: string, line: nat, column: nat) returns (i: nat)
    requires NoEscapedNewline(Code, source)
    requires 1 <= line <= |CleanedTexts(Scrub(Code, source, "", ""))|
    requires 1 <= column <= |CleanedTexts(Scrub(Code, source, "", ""))[line - 1]|
    requires CleanedTexts(Scrub(Code, source, "", ""))[line - 1][column - 1] != ' '
    ensures i < |source| && source[i] == CleanedTexts(Scrub(Code, source, "", ""))[line - 1][column - 1]
    ensures forall j :: Position(source, j) == (line, column) <==> j == i
  {
    var clean := Clean(Code, source);
    ScrubCleaned(Code, source, "", "");
    LinesOfFrom(clean);
    CleanKeepsOffsets(Code, source);
    i := OffsetOf(clean, line - 1, column - 1);
    forall j: nat
      ensures Position(source, j) == (line, column) <==> j == i
    {
      SamePositions(source, clean, i);
      PositionInjective(source, i, j);
    }
  }

  lemma {:induction false} PositionLine(s: string, i: nat)
    requires i <= |s|
    ensures Position(s, i).0 == 1 + Newlines(s[..i])
  {
    if i > 0 {
      PositionLine(s, i - 1);
      assert s[..i] == s[..i - 1] + [s[i - 1]];
      NewlinesAppend(s[..i - 1], [s[i - 1]]);
      NewlinesOfToken([s[i - 1]]);
    }
  }

  /** Lines and columns of the cleaned text are those of the source exactly when
      no string has a backslash before a newline. */
  lemma CleanPositionsIff(source: string)
    ensures (forall i: nat | i <= |source| :: Position(Clean(Code, source), i) == Position(source, i))
       <==> NoEscapedNewline(Code, source)
  {
    var clean := Clean(Code, source);
    CleanCounts(Code, source);
    if NoEscapedNewline(Code, source) {
      CleanKeepsOffsets(Code, source);
      forall i: nat | i <= |source|
        ensures Position(clean, i) == Position(source, i)
      {
        SamePositions(source, clean, i);
      }
    } else {
      PositionLine(clean, |source|);
      PositionLine(source, |source|);
      assert clean[..|source|] == clean && source[..|source|] == source;
    }
  }

  /** A string with a backslash before a newline: the lexers disagree, and the raw
      lines are not the source's. */
  lemma EscapedNewlineDiffers()
    ensures var source := ['"', '\\', '\n', '"'];
            && CleanedTexts(Scrub(Code, source, "", "")) != LinesOf(BlankStrings(None, Strip(Code, source)))
            && RawTexts(Scrub(Code, source, "", "")) != LinesOf(source)
  {
    var source := ['"', '\\', '\n', '"'];
    var rest := ['\\', '\n', '"'];
    assert source[..1] == ['"'] && source[1..] == rest && rest[..2] == ['\\', '\n'];
    assert !NoEscapedNewline(Quote('"'), rest);
    assert !NoEscapedNewline(Code, source);
    LexersAgreeIff(source);
    RawIff(source);
  }
}
