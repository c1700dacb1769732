/** Lines and positions of a source text, as the scanners under scripts/ report
    them. */
module SourceText {

  /** The lines of a text; what follows the last newline is a line if it is not
      empty. */
  function LinesOf(s: string): seq<string> {
    if s == "" then [] else LinesFrom("", s)
  }

  /** The lines of a text of which `line` was already read. */
  function LinesFrom(line: string, s: string): seq<string>
    decreases |s|
  {
    if s == "" then (if line == "" then [] else [line])
    else if s[0] == '\n' then [line] + LinesFrom("", s[1..])
    else LinesFrom(line + [s[0]], s[1..])
  }

  /** 1-based line and column of an offset. */
  function Position(s: string, index: nat): (p: (nat, nat))
    ensures p.0 >= 1 && p.1 >= 1
  {
    if index == 0 then (1, 1)
    else
      var (line, column) := Position(s, index - 1);
      if index <= |s| && s[index - 1] == '\n' then (line + 1, 1) else (line, column + 1)
  }

  method LineAndColumn(source: string, index: nat) returns (line: nat, column: nat)
    requires index <= |source|
    ensures (line, column) == Position(source, index)
  {
    line := 1;
    var lastLineStart := 0;
    for i := 0 to index
      invariant 0 <= lastLineStart <= i
      invariant (line, i - lastLineStart + 1) == Position(source, i)
    {
      if source[i] == '\n' {
        line := line + 1;
        lastLineStart := i + 1;
      }
    }
    column := index - lastLineStart + 1;
  }

  /** Positions grow with offsets, line first. */
  lemma {:induction false} PositionGrows(s: string, i: nat, j: nat)
    requires i < j
    ensures var p, q := Position(s, i), Position(s, j);
            p.0 < q.0 || (p.0 == q.0 && p.1 < q.1)
  {
    if i < j - 1 { PositionGrows(s, i, j - 1); }
  }

  /** A position names one offset. */
  lemma PositionInjective(s: string, i: nat, j: nat)
    ensures Position(s, i) == Position(s, j) ==> i == j
  {
    if i < j { PositionGrows(s, i, j); }
    if j < i { PositionGrows(s, j, i); }
  }

  ghost predicate SameNewlines(s: string, t: string) {
    |s| == |t| && forall i | 0 <= i < |s| :: s[i] == '\n' <==> t[i] == '\n'
  }

  lemma {:induction false} SamePositions(s: string, t: string, index: nat)
    requires SameNewlines(s, t)
    ensures Position(s, index) == Position(t, index)
  {
    if index > 0 { SamePositions(s, t, index - 1); }
  }

  // ----- the line at an offset

  /** Where the line around `index` starts: after the last newline at or before
      it. */
  function LineStart(s: string, index: int): (r: int)
    requires index < |s|
    ensures 0 <= r && (index >= -1 ==> r <= index + 1)
  {
    if index < 0 then 0 else if s[index] == '\n' then index + 1 else LineStart(s, index - 1)
  }

  function LineEnd(s: string, index: nat): (r: nat)
    requires index <= |s|
    ensures index <= r <= |s|
    decreases |s| - index
  {
    if index == |s| || s[index] == '\n' then index else LineEnd(s, index + 1)
  }

  /** `lineSnippet` before trimming.  At a newline the slice is empty. */
  function LineSlice(s: string, index: nat): string
    requires index < |s|
  {
    var start, end := LineStart(s, index), LineEnd(s, index);
    if start <= end then s[start..end] else ""
  }

  lemma {:induction false} StartFromColumn(s: string, index: nat)
    requires index <= |s|
    ensures Position(s, index).1 == index - LineStart(s, index - 1) + 1
  {
    if index > 0 { StartFromColumn(s, index - 1); }
  }

  /** Reading on from `k`, with the current line's beginning already read, gives
      the lines from the one `k` is on. */
  lemma {:induction false} LinesAt(s: string, k: nat)
    requires k <= |s|
    ensures var n := Position(s, k).0 - 1;
            var read := s[LineStart(s, k - 1)..k];
            n <= |LinesFrom("", s)| && LinesFrom("", s)[n..] == LinesFrom(read, s[k..])
  {
    if k == 0 {
      assert s[0..] == s && s[0..0] == "";
    } else {
      LinesAt(s, k - 1);
      var read := s[LineStart(s, k - 2)..k - 1];
      assert s[k - 1..][1..] == s[k..] && s[k - 1..][0] == s[k - 1];
      if s[k - 1] == '\n' {
        assert s[k..k] == "";
        var n := Position(s, k - 1).0 - 1;
        assert LinesFrom("", s)[n..] == [read] + LinesFrom("", s[k..]);
        assert LinesFrom("", s)[n + 1..] == LinesFrom("", s)[n..][1..];
      } else {
        assert s[LineStart(s, k - 1)..k] == read + [s[k - 1]];
      }
    }
  }

  lemma {:induction false} FirstLine(line: string, s: string)
    requires line + s != "" && (line == "" ==> s[0] != '\n')
    ensures LinesFrom(line, s) != [] && LinesFrom(line, s)[0] == line + s[..LineEnd(s, 0)]
    decreases |s|
  {
    if s == "" {
      assert line + s[..0] == line;
    } else if s[0] == '\n' {
      assert line + s[..0] == line;
    } else {
      FirstLine(line + [s[0]], s[1..]);
      EndShift(s, 1);
      assert line + s[..LineEnd(s, 0)] == line + [s[0]] + s[1..][..LineEnd(s[1..], 0)];
    }
  }

  lemma {:induction false} EndShift(s: string, k: nat)
    requires k <= |s|
    ensures LineEnd(s, k) == k + LineEnd(s[k..], 0)
    decreases |s| - k
  {
    if k < |s| && s[k] != '\n' {
      EndShift(s, k + 1);
      EndShiftOne(s[k..]);
      assert s[k..][1..] == s[k + 1..];
    }
  }

  lemma {:induction false} EndShiftOne(s: string)
    requires s != "" && s[0] != '\n'
    ensures LineEnd(s, 0) == 1 + LineEnd(s[1..], 0)
  {
    EndFrom(s, 1);
  }

  lemma {:induction false} EndFrom(s: string, k: nat)
    requires 1 <= k <= |s|
    ensures LineEnd(s, k) == 1 + LineEnd(s[1..], k - 1)
    decreases |s| - k
  {
    if k < |s| && s[k] != '\n' { EndFrom(s, k + 1); }
  }

  /** The character at an offset stands on its line at its column, and the slice
      `lineSnippet` cuts out is that line. */
  lemma PositionMeans(s: string, i: nat)
    requires i < |s| && s[i] != '\n'
    ensures var (line, column) := Position(s, i);
            && line <= |LinesOf(s)| && column <= |LinesOf(s)[line - 1]|
            && LinesOf(s)[line - 1][column - 1] == s[i]
            && LinesOf(s)[line - 1] == LineSlice(s, i)
  {
    var start := LineStart(s, i - 1);
    var read := s[start..i];
    LinesAt(s, i);
    StartFromColumn(s, i);
    FirstLine(read, s[i..]);
    EndShift(s, i);
    assert read + s[i..][..LineEnd(s[i..], 0)] == s[start..LineEnd(s, i)];
    var n := Position(s, i).0 - 1;
    assert LinesOf(s)[n..][0] == LinesOf(s)[n];
    EndFrom0(s, i);
  }

  lemma EndFrom0(s: string, i: nat)
    requires i < |s| && s[i] != '\n'
    ensures LineEnd(s, i) > i
  {
  }

  // ----- the offset at a line and column

  /** `line`, the characters before offset `j` since the last newline, stands on
      line `l`. */
  ghost predicate Begun(s: string, j: nat, line: string, l: nat) {
    && |line| <= j <= |s| && Position(s, j) == (l, |line| + 1)
    && forall x | 0 <= x < |line| ::
         s[j - |line| + x] == line[x] && line[x] != '\n' && Position(s, j - |line| + x) == (l, x + 1)
  }

  lemma {:induction false} OffsetFrom(s: string, j: nat, line: string, l: nat, k: nat, c: nat) returns (i: nat)
    requires Begun(s, j, line, l) && k < |LinesFrom(line, s[j..])| && c < |LinesFrom(line, s[j..])[k]|
    ensures i < |s| && s[i] != '\n' && s[i] == LinesFrom(line, s[j..])[k][c] && Position(s, i) == (l + k, c + 1)
    decreases |s| - j
  {
    if k == 0 && (j == |s| || s[j] == '\n') {
      assert LinesFrom(line, s[j..])[0] == line && line[c] != '\n';
      i := j - |line| + c;
    } else {
      assert s[j..][1..] == s[j + 1..] && s[j..][0] == s[j];
      if s[j] == '\n' {
        i := OffsetFrom(s, j + 1, "", l + 1, k - 1, c);
      } else {
        assert Begun(s, j + 1, line + [s[j]], l);
        i := OffsetFrom(s, j + 1, line + [s[j]], l, k, c);
      }
    }
  }

  /** Every character of every line is the character at the offset of that line and
      column. */
  lemma OffsetOf(s: string, k: nat, c: nat) returns (i: nat)
    requires k < |LinesOf(s)| && c < |LinesOf(s)[k]|
    ensures i < |s| && s[i] != '\n' && s[i] == LinesOf(s)[k][c] && Position(s, i) == (k + 1, c + 1)
  {
    assert s[0..] == s;
    i := OffsetFrom(s, 0, "", 1, k, c);
  }
}
