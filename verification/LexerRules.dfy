/** What the two lexers under scripts/ take for a string and for a comment, and what
    they write for each.  Together the rules fix the output for every source. */
module LexerRules {
  import opened Lexers
  import opened LexerFacts

  /** The inside of a string that ends at the next `q`: every backslash takes the
      character after it along. */
  predicate Inside(q: char, t: string) {
    t == "" || (if t[0] == '\\' then |t| > 1 && Inside(q, t[2..]) else t[0] != q && Inside(q, t[1..]))
  }

  /** The inside of a block comment: no star is followed by a slash. */
  predicate Uncloses(t: string) {
    forall i | 0 <= i < |t| - 1 :: t[i] == '*' ==> t[i + 1] != '/'
  }

  /** Everything becomes a space, except newlines. */
  function Blanked(t: string): (r: string)
    ensures |r| == |t| && forall i | 0 <= i < |t| :: r[i] == if t[i] == '\n' then '\n' else ' '
  {
    seq(|t|, i requires 0 <= i < |t| => if t[i] == '\n' then '\n' else ' ')
  }

  lemma BlankedCons(c: char, t: string)
    ensures Blanked([c] + t) == [if c == '\n' then '\n' else ' '] + Blanked(t)
  {
  }

  /** As `Blanked`, and an escaped newline becomes a space as well. */
  function BlankedInside(t: string): (r: string)
    ensures |r| == |t|
    ensures '\\' !in t ==> r == Blanked(t)
  {
    if t == "" then ""
    else if t[0] == '\\' && |t| > 1 then "  " + BlankedInside(t[2..])
    else
      assert t == [t[0]] + t[1..];
      [if t[0] == '\n' then '\n' else ' '] + BlankedInside(t[1..])
  }

  function WithoutSlashes(t: string): (r: string)
    ensures '/' !in t ==> r == t
  {
    if t == "" then ""
    else
      assert t == [t[0]] + t[1..];
      (if t[0] == '/' then "" else [t[0]]) + WithoutSlashes(t[1..])
  }

  /** Neither a quote nor the beginning of a comment. */
  predicate Ordinary(c: char, rest: string) {
    && c != '"' && c != '\'' && c != '`'
    && !(c == '/' && rest != "" && (rest[0] == '/' || rest[0] == '*'))
  }

  // ----- stripCommentsPreserveStrings: strings stay, comments become blanks

  lemma StripTake(m: Mode, t: string, rest: string)
    requires 1 <= |t| <= 2 && Width(m, t + rest) == |t|
    ensures Strip(m, t + rest) == StripToken(m, t) + Strip(After(m, t), rest)
  {
    hide Width, StripToken, After;
    assert (t + rest)[..|t|] == t && (t + rest)[|t|..] == rest;
  }

  lemma {:induction false} StripInside(q: char, t: string, rest: string)
    requires (q == '"' || q == '\'' || q == '`') && Inside(q, t)
    ensures Strip(Quote(q), t + ([q] + rest)) == t + ([q] + Strip(Code, rest))
    decreases |t|
  {
    hide Strip;
    if t == "" {
      assert t + ([q] + rest) == [q] + rest;
      StripTake(Quote(q), [q], rest);
    } else {
      var k := if t[0] == '\\' then 2 else 1;
      assert t + ([q] + rest) == t[..k] + (t[k..] + ([q] + rest)) && t == t[..k] + t[k..];
      StripTake(Quote(q), t[..k], t[k..] + ([q] + rest));
      StripInside(q, t[k..], rest);
    }
  }

  lemma {:induction false} StripOpen(q: char, t: string)
    requires (q == '"' || q == '\'' || q == '`') && Inside(q, t)
    ensures Strip(Quote(q), t) == t
    decreases |t|
  {
    if t != "" {
      hide Strip;
      var k := if t[0] == '\\' then 2 else 1;
      assert t == t[..k] + t[k..];
      StripTake(Quote(q), t[..k], t[k..]);
      StripOpen(q, t[k..]);
    }
  }

  /** Strings with any of the three quotes, ended or not. */
  lemma StripString(q: char, t: string, rest: string)
    requires (q == '"' || q == '\'' || q == '`') && Inside(q, t)
    ensures Strip(Code, [q] + t + [q] + rest) == [q] + t + [q] + Strip(Code, rest)
    ensures Strip(Code, [q] + t) == [q] + t
  {
    hide Strip, Inside, BlankedInside;
    assert [q] + t + [q] + rest == [q] + (t + ([q] + rest));
    StripTake(Code, [q], t + ([q] + rest));
    StripInside(q, t, rest);
    StripTake(Code, [q], t);
    StripOpen(q, t);
  }

  lemma StripLineEnd(rest: string)
    requires rest == "" || rest[0] == '\n'
    ensures Strip(Line, rest) == Strip(Code, rest)
  {
    if rest != "" {
      hide Strip;
      assert rest == [rest[0]] + rest[1..];
      StripTake(Line, [rest[0]], rest[1..]);
      StripTake(Code, [rest[0]], rest[1..]);
    }
  }

  lemma {:induction false} StripLine(t: string, rest: string)
    requires '\n' !in t && (rest == "" || rest[0] == '\n')
    ensures Strip(Line, t + rest) == Blanked(t) + Strip(Code, rest)
    decreases |t|
  {
    hide Strip;
    if t == "" {
      assert t + rest == rest;
      StripLineEnd(rest);
    } else {
      assert t + rest == [t[0]] + (t[1..] + rest) && t == [t[0]] + t[1..];
      StripTake(Line, [t[0]], t[1..] + rest);
      BlankedCons(t[0], t[1..]);
      StripLine(t[1..], rest);
    }
  }

  lemma StripLineComment(t: string, rest: string)
    requires '\n' !in t && (rest == "" || rest[0] == '\n')
    ensures Strip(Code, "//" + t + rest) == "  " + Blanked(t) + Strip(Code, rest)
  {
    hide Strip, WithoutSlashes, Blanked;
    assert "//" + t + rest == "//" + (t + rest);
    StripTake(Code, "//", t + rest);
    StripLine(t, rest);
  }

  lemma {:induction false} StripBlock(t: string, rest: string)
    requires Uncloses(t)
    ensures Strip(Block, t + ("*/" + rest)) == Blanked(t) + ("  " + Strip(Code, rest))
    decreases |t|
  {
    hide Strip;
    if t == "" {
      assert t + ("*/" + rest) == "*/" + rest;
      StripTake(Block, "*/", rest);
    } else {
      assert t + ("*/" + rest) == [t[0]] + (t[1..] + ("*/" + rest)) && t == [t[0]] + t[1..];
      StripTake(Block, [t[0]], t[1..] + ("*/" + rest));
      BlankedCons(t[0], t[1..]);
      StripBlock(t[1..], rest);
    }
  }

  lemma {:induction false} StripOpenBlock(t: string)
    requires Uncloses(t)
    ensures Strip(Block, t) == Blanked(t)
    decreases |t|
  {
    if t != "" {
      hide Strip;
      assert t == [t[0]] + t[1..];
      StripTake(Block, [t[0]], t[1..]);
      BlankedCons(t[0], t[1..]);
      StripOpenBlock(t[1..]);
    }
  }

  lemma StripBlockComment(t: string, rest: string)
    requires Uncloses(t)
    ensures Strip(Code, "/*" + t + "*/" + rest) == "  " + Blanked(t) + "  " + Strip(Code, rest)
    ensures Strip(Code, "/*" + t) == "  " + Blanked(t)
  {
    hide Strip, Uncloses, Blanked;
    assert "/*" + t + "*/" + rest == "/*" + (t + ("*/" + rest));
    StripTake(Code, "/*", t + ("*/" + rest));
    StripBlock(t, rest);
    StripTake(Code, "/*", t);
    StripOpenBlock(t);
  }

  lemma StripOrdinary(c: char, rest: string)
    requires Ordinary(c, rest)
    ensures Strip(Code, [c] + rest) == [c] + Strip(Code, rest)
  {
    hide Strip;
    StripTake(Code, [c], rest);
  }

  // ----- cleanLines, the cleaned text: strings become blanks too

  lemma CleanTake(m: Mode, t: string, rest: string)
    requires 1 <= |t| <= 2 && Width(m, t + rest) == |t|
    ensures Clean(m, t + rest) == CleanToken(m, t) + Clean(After(m, t), rest)
  {
    hide Width, CleanToken, After;
    assert (t + rest)[..|t|] == t && (t + rest)[|t|..] == rest;
  }

  lemma {:induction false} CleanInside(q: char, t: string, rest: string)
    requires (q == '"' || q == '\'' || q == '`') && Inside(q, t)
    ensures Clean(Quote(q), t + ([q] + rest)) == BlankedInside(t) + (" " + Clean(Code, rest))
    decreases |t|
  {
    hide Clean;
    if t == "" {
      assert t + ([q] + rest) == [q] + rest;
      CleanTake(Quote(q), [q], rest);
    } else {
      var k := if t[0] == '\\' then 2 else 1;
      assert t + ([q] + rest) == t[..k] + (t[k..] + ([q] + rest)) && t == t[..k] + t[k..];
      CleanTake(Quote(q), t[..k], t[k..] + ([q] + rest));
      CleanInside(q, t[k..], rest);
    }
  }

  lemma {:induction false} CleanOpen(q: char, t: string)
    requires (q == '"' || q == '\'' || q == '`') && Inside(q, t)
    ensures Clean(Quote(q), t) == BlankedInside(t)
    decreases |t|
  {
    if t != "" {
      hide Clean;
      var k := if t[0] == '\\' then 2 else 1;
      assert t == t[..k] + t[k..];
      CleanTake(Quote(q), t[..k], t[k..]);
      CleanOpen(q, t[k..]);
    }
  }

  /** Strings with any of the three quotes, ended or not. */
  lemma CleanString(q: char, t: string, rest: string)
    requires (q == '"' || q == '\'' || q == '`') && Inside(q, t)
    ensures Clean(Code, [q] + t + [q] + rest) == " " + BlankedInside(t) + " " + Clean(Code, rest)
    ensures Clean(Code, [q] + t) == " " + BlankedInside(t)
  {
    hide Clean, Inside, BlankedInside;
    assert [q] + t + [q] + rest == [q] + (t + ([q] + rest));
    CleanTake(Code, [q], t + ([q] + rest));
    CleanInside(q, t, rest);
    CleanTake(Code, [q], t);
    CleanOpen(q, t);
  }

  lemma CleanLineEnd(rest: string)
    requires rest == "" || rest[0] == '\n'
    ensures Clean(Line, rest) == Clean(Code, rest)
  {
    if rest != "" {
      hide Clean;
      assert rest == [rest[0]] + rest[1..];
      CleanTake(Line, [rest[0]], rest[1..]);
      CleanTake(Code, [rest[0]], rest[1..]);
    }
  }

  lemma {:induction false} CleanLine(t: string, rest: string)
    requires '\n' !in t && (rest == "" || rest[0] == '\n')
    ensures Clean(Line, t + rest) == Blanked(t) + Clean(Code, rest)
    decreases |t|
  {
    hide Clean;
    if t == "" {
      assert t + rest == rest;
      CleanLineEnd(rest);
    } else {
      assert t + rest == [t[0]] + (t[1..] + rest) && t == [t[0]] + t[1..];
      CleanTake(Line, [t[0]], t[1..] + rest);
      BlankedCons(t[0], t[1..]);
      CleanLine(t[1..], rest);
    }
  }

  lemma CleanLineComment(t: string, rest: string)
    requires '\n' !in t && (rest == "" || rest[0] == '\n')
    ensures Clean(Code, "//" + t + rest) == "  " + Blanked(t) + Clean(Code, rest)
  {
    hide Clean, WithoutSlashes, Blanked;
    assert "//" + t + rest == "//" + (t + rest);
    CleanTake(Code, "//", t + rest);
    CleanLine(t, rest);
  }

  lemma {:induction false} CleanBlock(t: string, rest: string)
    requires Uncloses(t)
    ensures Clean(Block, t + ("*/" + rest)) == Blanked(t) + ("  " + Clean(Code, rest))
    decreases |t|
  {
    hide Clean;
    if t == "" {
      assert t + ("*/" + rest) == "*/" + rest;
      CleanTake(Block, "*/", rest);
    } else {
      assert t + ("*/" + rest) == [t[0]] + (t[1..] + ("*/" + rest)) && t == [t[0]] + t[1..];
      CleanTake(Block, [t[0]], t[1..] + ("*/" + rest));
      BlankedCons(t[0], t[1..]);
      CleanBlock(t[1..], rest);
    }
  }

  lemma {:induction false} CleanOpenBlock(t: string)
    requires Uncloses(t)
    ensures Clean(Block, t) == Blanked(t)
    decreases |t|
  {
    if t != "" {
      hide Clean;
      assert t == [t[0]] + t[1..];
      CleanTake(Block, [t[0]], t[1..]);
      BlankedCons(t[0], t[1..]);
      CleanOpenBlock(t[1..]);
    }
  }

  lemma CleanBlockComment(t: string, rest: string)
    requires Uncloses(t)
    ensures Clean(Code, "/*" + t + "*/" + rest) == "  " + Blanked(t) + "  " + Clean(Code, rest)
    ensures Clean(Code, "/*" + t) == "  " + Blanked(t)
  {
    hide Clean, Uncloses, Blanked;
    assert "/*" + t + "*/" + rest == "/*" + (t + ("*/" + rest));
    CleanTake(Code, "/*", t + ("*/" + rest));
    CleanBlock(t, rest);
    CleanTake(Code, "/*", t);
    CleanOpenBlock(t);
  }

  lemma CleanOrdinary(c: char, rest: string)
    requires Ordinary(c, rest)
    ensures Clean(Code, [c] + rest) == [c] + Clean(Code, rest)
  {
    hide Clean;
    CleanTake(Code, [c], rest);
  }

  // ----- cleanLines, the raw text: everything stays but slashes of comments

  lemma RawTake(m: Mode, t: string, rest: string)
    requires 1 <= |t| <= 2 && Width(m, t + rest) == |t|
    ensures Raw(m, t + rest) == RawToken(m, t) + Raw(After(m, t), rest)
  {
    hide Width, RawToken, After;
    assert (t + rest)[..|t|] == t && (t + rest)[|t|..] == rest;
  }

  lemma {:induction false} RawInside(q: char, t: string, rest: string)
    requires (q == '"' || q == '\'' || q == '`') && Inside(q, t)
    ensures Raw(Quote(q), t + ([q] + rest)) == t + ([q] + Raw(Code, rest))
    decreases |t|
  {
    hide Raw;
    if t == "" {
      assert t + ([q] + rest) == [q] + rest;
      RawTake(Quote(q), [q], rest);
    } else {
      var k := if t[0] == '\\' then 2 else 1;
      assert t + ([q] + rest) == t[..k] + (t[k..] + ([q] + rest)) && t == t[..k] + t[k..];
      RawTake(Quote(q), t[..k], t[k..] + ([q] + rest));
      RawInside(q, t[k..], rest);
    }
  }

  lemma {:induction false} RawOpen(q: char, t: string)
    requires (q == '"' || q == '\'' || q == '`') && Inside(q, t)
    ensures Raw(Quote(q), t) == t
    decreases |t|
  {
    if t != "" {
      hide Raw;
      var k := if t[0] == '\\' then 2 else 1;
      assert t == t[..k] + t[k..];
      RawTake(Quote(q), t[..k], t[k..]);
      RawOpen(q, t[k..]);
    }
  }

  /** Strings with any of the three quotes, ended or not. */
  lemma RawString(q: char, t: string, rest: string)
    requires (q == '"' || q == '\'' || q == '`') && Inside(q, t)
    ensures Raw(Code, [q] + t + [q] + rest) == [q] + t + [q] + Raw(Code, rest)
    ensures Raw(Code, [q] + t) == [q] + t
  {
    hide Raw, Inside, BlankedInside;
    assert [q] + t + [q] + rest == [q] + (t + ([q] + rest));
    RawTake(Code, [q], t + ([q] + rest));
    RawInside(q, t, rest);
    RawTake(Code, [q], t);
    RawOpen(q, t);
  }

  lemma RawLineEnd(rest: string)
    requires rest == "" || rest[0] == '\n'
    ensures Raw(Line, rest) == Raw(Code, rest)
  {
    if rest != "" {
      hide Raw;
      assert rest == [rest[0]] + rest[1..];
      RawTake(Line, [rest[0]], rest[1..]);
      RawTake(Code, [rest[0]], rest[1..]);
    }
  }

  lemma WithoutSlashesCons(c: char, t: string)
    ensures WithoutSlashes([c] + t) == (if c == '/' then "" else [c]) + WithoutSlashes(t)
  {
    assert ([c] + t)[1..] == t;
  }

  lemma Associative(x: string, y: string, z: string)
    ensures x + (y + z) == x + y + z
  {
  }

  lemma RawLineStep(c: char, rest: string)
    requires c != '\n'
    ensures Raw(Line, [c] + rest) == (if c == '/' then "" else [c]) + Raw(Line, rest)
  {
    hide Raw;
    RawTake(Line, [c], rest);
  }

  lemma {:induction false} RawLine(t: string, rest: string)
    requires '\n' !in t && (rest == "" || rest[0] == '\n')
    ensures Raw(Line, t + rest) == WithoutSlashes(t) + Raw(Code, rest)
    decreases |t|
  {
    if t == "" {
      assert t + rest == rest;
      RawLineEnd(rest);
    } else {
      hide *;
      var c, more := t[0], t[1..];
      assert t == [c] + more;
      Associative([c], more, rest);
      RawLineStep(c, more + rest);
      WithoutSlashesCons(c, more);
      RawLine(more, rest);
      var kept := if c == '/' then "" else [c];
      Associative(kept, WithoutSlashes(more), Raw(Code, rest));
    }
  }

  lemma RawLineComment(t: string, rest: string)
    requires '\n' !in t && (rest == "" || rest[0] == '\n')
    ensures Raw(Code, "//" + t + rest) == "/" + WithoutSlashes(t) + Raw(Code, rest)
  {
    hide Raw, WithoutSlashes, Blanked;
    assert "//" + t + rest == "//" + (t + rest);
    RawTake(Code, "//", t + rest);
    RawLine(t, rest);
  }

  lemma {:induction false} RawBlock(t: string, rest: string)
    requires Uncloses(t)
    ensures Raw(Block, t + ("*/" + rest)) == t + ("*" + Raw(Code, rest))
    decreases |t|
  {
    hide Raw;
    if t == "" {
      assert t + ("*/" + rest) == "*/" + rest;
      RawTake(Block, "*/", rest);
    } else {
      assert t + ("*/" + rest) == [t[0]] + (t[1..] + ("*/" + rest)) && t == [t[0]] + t[1..];
      RawTake(Block, [t[0]], t[1..] + ("*/" + rest));
      BlankedCons(t[0], t[1..]);
      RawBlock(t[1..], rest);
    }
  }

  lemma {:induction false} RawOpenBlock(t: string)
    requires Uncloses(t)
    ensures Raw(Block, t) == t
    decreases |t|
  {
    if t != "" {
      hide Raw;
      assert t == [t[0]] + t[1..];
      RawTake(Block, [t[0]], t[1..]);
      BlankedCons(t[0], t[1..]);
      RawOpenBlock(t[1..]);
    }
  }

  lemma RawBlockComment(t: string, rest: string)
    requires Uncloses(t)
    ensures Raw(Code, "/*" + t + "*/" + rest) == "/" + t + "*" + Raw(Code, rest)
    ensures Raw(Code, "/*" + t) == "/" + t
  {
    hide Raw, Uncloses, Blanked;
    assert "/*" + t + "*/" + rest == "/*" + (t + ("*/" + rest));
    RawTake(Code, "/*", t + ("*/" + rest));
    RawBlock(t, rest);
    RawTake(Code, "/*", t);
    RawOpenBlock(t);
  }

  lemma RawOrdinary(c: char, rest: string)
    requires Ordinary(c, rest)
    ensures Raw(Code, [c] + rest) == [c] + Raw(Code, rest)
  {
    hide Raw;
    RawTake(Code, [c], rest);
  }
}
