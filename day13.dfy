/**
 * Day 13, "Point of Incidence" (src/bin/day13.rs): each pattern of ash and
 * rocks has a line of reflection, either between two rows or between two
 * columns; `part1` adds 100 times the number of rows above a horizontal
 * line, or else the number of columns left of a vertical line.
 */
module Day13 {
  import opened Text
  import opened Grid

  // ---------------------------------------------------------------------
  // Reflection

  /**
   * `lines` reflect across the line between `lines[r - 1]` and `lines[r]`:
   * line `r + k` equals line `r - 1 - k` for every `k` where both exist.
   * Across `r == 0` every sequence reflects.
   */
  predicate MirrorsAt<T(==)>(lines: seq<T>, r: nat) {
    forall i :: r <= i < |lines| && i < 2 * r ==> lines[i] == lines[2 * r - 1 - i]
  }

  /** The first `r` from `from` on, below `|lines|`, across which `lines` reflect. */
  function FirstMirror<T(==)>(lines: seq<T>, from: nat): (r: Option<nat>)
    ensures r.Some? ==> from <= r.value < |lines| && MirrorsAt(lines, r.value)
    ensures forall r' :: from <= r' < |lines| && (r.None? || r' < r.value) ==> !MirrorsAt(lines, r')
    decreases |lines| - from
  {
    if from >= |lines| then None
    else if MirrorsAt(lines, from) then Some(from)
    else FirstMirror(lines, from + 1)
  }

  /**
   * A pattern reflects across the line left of column `c` exactly when each
   * of its rows, read as a sequence of cells, reflects there.
   */
  lemma ColumnMirrorRows(pattern: seq<seq<char>>, w: nat, c: nat)
    requires IsRect(pattern, |pattern|, w)
    ensures MirrorsAt(Columns(pattern, w), c) <==> forall y :: 0 <= y < |pattern| ==> MirrorsAt(pattern[y], c)
  {
    var cols := Columns(pattern, w);
    if MirrorsAt(cols, c) {
      forall y, i | 0 <= y < |pattern| && c <= i < w && i < 2 * c
        ensures pattern[y][i] == pattern[y][2 * c - 1 - i]
      {
        assert cols[i] == cols[2 * c - 1 - i];
        assert cols[i][y] == cols[2 * c - 1 - i][y];
      }
    }
    if forall y :: 0 <= y < |pattern| ==> MirrorsAt(pattern[y], c) {
      forall i | c <= i < w && i < 2 * c
        ensures cols[i] == cols[2 * c - 1 - i]
      {
        forall y | 0 <= y < |pattern|
          ensures cols[i][y] == cols[2 * c - 1 - i][y]
        {
          assert MirrorsAt(pattern[y], c);
        }
      }
    }
  }

  // ---------------------------------------------------------------------
  // The checks of `find_mirror_row` and `find_mirror_col`

  /**
   * `check_mirror_row`: compares rows outwards from the line between rows
   * `r - 1` and `r`; the upper index wraps below 0 and a missing row ends
   * the walk.  The number of rows is a `usize`.
   */
  method CheckMirrorRow(pattern: seq<seq<char>>, r: nat) returns (b: bool)
    requires 0 < r <= USIZE_MAX && |pattern| <= USIZE_MAX
    ensures b <==> MirrorsAt(pattern, r)
  {
    var back, forward := r - 1, r;
    while true
      invariant r <= forward <= 2 * r && forward <= r + |pattern|
      invariant (forward < 2 * r && back + forward == 2 * r - 1) || (forward == 2 * r && back == USIZE_MAX)
      invariant forall i :: r <= i < forward && i < |pattern| ==> pattern[i] == pattern[2 * r - 1 - i]
      decreases r + |pattern| - forward
    {
      if back >= |pattern| {
        break;
      }
      if forward >= |pattern| {
        break;
      }
      if pattern[back] != pattern[forward] {
        return false;
      }
      back := WrappingDec(back);
      forward := forward + 1;
    }
    return true;
  }

  /** `check_mirror_col`: the same walk over the columns of a pattern `w` wide. */
  method CheckMirrorCol(pattern: seq<seq<char>>, w: nat, c: nat) returns (b: bool)
    requires IsRect(pattern, |pattern|, w)
    requires 0 < c <= USIZE_MAX && w <= USIZE_MAX
    ensures b <==> MirrorsAt(Columns(pattern, w), c)
  {
    ghost var cols := Columns(pattern, w);
    var back, forward := c - 1, c;
    while true
      invariant c <= forward <= 2 * c && forward <= c + w
      invariant (forward < 2 * c && back + forward == 2 * c - 1) || (forward == 2 * c && back == USIZE_MAX)
      invariant forall i :: c <= i < forward && i < w ==> cols[i] == cols[2 * c - 1 - i]
      decreases c + w - forward
    {
      if back >= w {
        break;
      }
      if forward >= w {
        break;
      }
      if Column(pattern, back) != Column(pattern, forward) {
        return false;
      }
      back := WrappingDec(back);
      forward := forward + 1;
    }
    return true;
  }

  /** `find_mirror_row`: the first row index from 1 on that passes the check; 0 is never tried. */
  method FindMirrorRow(pattern: seq<seq<char>>) returns (r: Option<nat>)
    requires |pattern| <= USIZE_MAX
    ensures r == FirstMirror(pattern, 1)
  {
    var y := 1;
    while y < |pattern|
      invariant 1 <= y && FirstMirror(pattern, y) == FirstMirror(pattern, 1)
    {
      var found := CheckMirrorRow(pattern, y);
      if found {
        return Some(y);
      }
      y := y + 1;
    }
    return None;
  }

  /** `find_mirror_col`: the first column index from 1 on that passes the check. */
  method FindMirrorCol(pattern: seq<seq<char>>, w: nat) returns (r: Option<nat>)
    requires IsRect(pattern, |pattern|, w) && w <= USIZE_MAX
    ensures r == FirstMirror(Columns(pattern, w), 1)
  {
    var x := 1;
    while x < w
      invariant 1 <= x && FirstMirror(Columns(pattern, w), x) == FirstMirror(Columns(pattern, w), 1)
    {
      var found := CheckMirrorCol(pattern, w, x);
      if found {
        return Some(x);
      }
      x := x + 1;
    }
    return None;
  }

  // ---------------------------------------------------------------------
  // Reading the patterns

  /** `contents.split("\n\n").take_while(|x| !x.is_empty())` */
  function Patterns(contents: string): seq<string> {
    TakeNonEmpty(SplitStr(contents, "\n\n"))
  }

  /**
   * The `Array2D` `part1` builds for one pattern: one more row than there
   * are newlines, as wide as the first line, filled from all the lines in
   * turn.  Panics without a newline or when there are too few cells.
   */
  function ReadPattern(raw: string): (r: Result<seq<seq<char>>>)
    ensures r.Ok? <==> '\n' in raw && |Concat(Split(raw, '\n'))| >= (CountChar(raw, '\n') + 1) * Width(raw)
    ensures r.Ok? ==> IsRect(r.value, CountChar(raw, '\n') + 1, Width(raw))
  {
    if '\n' !in raw then Panic("called `Option::unwrap()` on a `None` value")
    else FromRowMajor(Concat(Split(raw, '\n')), CountChar(raw, '\n') + 1, Width(raw))
  }

  /** A split at a separator that ends the string ends with an empty piece. */
  lemma {:induction false} SplitEndsEmpty(s: string, sep: char)
    requires |s| > 0 && s[|s| - 1] == sep
    ensures Split(s, sep)[|Split(s, sep)| - 1] == []
    decreases |s|
  {
    assert sep in s by {
      assert s[|s| - 1] == sep;
    }
    var i := IndexOf(s, sep).value;
    var rest := Split(s[i + 1..], sep);
    assert Split(s, sep) == [s[..i]] + rest;
    if i + 1 < |s| {
      var t := s[i + 1..];
      assert t[|t| - 1] == sep;
      SplitEndsEmpty(t, sep);
    } else {
      assert s[i + 1..] == [];
      assert rest == [[]];
    }
    LastOfCons(s[..i], rest);
  }

  /** The last element of `[x] + r` is the last element of `r`, when there is one. */
  lemma LastOfCons<T>(x: T, r: seq<T>)
    requires |r| > 0
    ensures ([x] + r)[|r|] == r[|r| - 1]
  {
  }

  /** Lines no wider than `w`, the last one empty, hold at most `w` cells per newline. */
  lemma {:induction false} ConcatShort(parts: seq<string>, w: nat)
    requires |parts| > 0 && parts[|parts| - 1] == []
    requires forall i :: 0 <= i < |parts| ==> |parts[i]| <= w
    ensures |Concat(parts)| <= (|parts| - 1) * w
  {
    if |parts| > 1 {
      ConcatShort(parts[1..], w);
    }
  }

  /**
   * A pattern that ends with a newline, as the last one of a file ending
   * with a newline does, gets an extra empty row the lines cannot fill, so
   * reading it panics whenever its lines are as wide as the first.
   */
  lemma TrailingNewlinePanics(raw: string)
    requires |raw| > 0 && raw[|raw| - 1] == '\n' && Width(raw) > 0
    requires forall i :: 0 <= i < |Split(raw, '\n')| ==> |Split(raw, '\n')[i]| <= Width(raw)
    ensures ReadPattern(raw).Panic?
  {
    var parts, w := Split(raw, '\n'), Width(raw);
    SplitCount(raw, '\n');
    SplitEndsEmpty(raw, '\n');
    ConcatShort(parts, w);
    MulSucc(|parts|, w);
    assert |Concat(parts)| < (CountChar(raw, '\n') + 1) * w;
  }

  /**
   * The summary `part1` adds for one pattern: 100 times the first row with
   * a reflection line above it, or else the first such column, or else 0.
   */
  function PatternScore(raw: string): Result<nat> {
    match ReadPattern(raw)
    case Panic(why) => Panic(why)
    case Ok(pattern) =>
      match FirstMirror(pattern, 1)
      case Some(row) => Ok(row * 100)
      case None =>
        match FirstMirror(Columns(pattern, Width(raw)), 1)
        case Some(col) => Ok(col)
        case None => Ok(0)
  }

  // ---------------------------------------------------------------------
  // part1

  /** The body of the pattern loop of `part1`: reads one pattern and finds its reflection. */
  method Summarize(raw: string) returns (r: Result<nat>)
    requires |raw| <= ISIZE_MAX
    ensures r == PatternScore(raw)
  {
    var read := ReadPattern(raw);
    if read.Panic? {
      return Panic(read.reason);
    }
    var pattern := read.value;
    var row := FindMirrorRow(pattern);
    if row.Some? {
      return Ok(row.value * 100);
    }
    var col := FindMirrorCol(pattern, Width(raw));
    if col.Some? {
      return Ok(col.value);
    }
    return Ok(0);
  }

  /** One round of the pattern loop of `part1`: adds the summary of pattern `i` to `sum`. */
  method AddSummary(patterns: seq<string>, i: nat, sum: nat) returns (r: Result<nat>)
    requires i < |patterns| && |patterns[i]| <= ISIZE_MAX
    requires SumResults(PatternScore, patterns[..i]) == Ok(sum)
    ensures r.Ok? ==> SumResults(PatternScore, patterns[..i + 1]) == r
    ensures r.Panic? ==> SumResults(PatternScore, patterns) == r
  {
    var score := Summarize(patterns[i]);
    if score.Panic? {
      assert patterns[..i + 1][..i] == patterns[..i];
      SumResultsPanic(PatternScore, patterns, i + 1);
      return score;
    }
    SumResultsStep(PatternScore, patterns, i, sum, score.value);
    return Ok(sum + score.value);
  }

  /** The pattern loop of `part1`: the summaries added up, stopping at the first panic. */
  method SummarizeAll(patterns: seq<string>) returns (r: Result<nat>)
    requires forall i :: 0 <= i < |patterns| ==> |patterns[i]| <= ISIZE_MAX
    ensures r == SumResults(PatternScore, patterns)
  {
    var res := 0;
    for i := 0 to |patterns|
      invariant SumResults(PatternScore, patterns[..i]) == Ok(res)
    {
      var next := AddSummary(patterns, i, res);
      if next.Panic? {
        return next;
      }
      res := next.value;
    }
    assert patterns[..|patterns|] == patterns;
    return Ok(res);
  }

  /**
   * `part1`: the summaries of the patterns added up, panicking at the
   * first pattern that cannot be read.  A `String` holds at most
   * `isize::MAX` bytes.
   */
  method Part1(contents: string) returns (r: Result<nat>)
    requires |contents| <= ISIZE_MAX
    ensures r == SumResults(PatternScore, Patterns(contents))
  {
    SplitStrShorter(contents, "\n\n");
    r := SummarizeAll(Patterns(contents));
  }
}
