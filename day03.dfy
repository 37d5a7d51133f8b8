/**
 * Day 3, "Gear Ratios" (src/bin/day03.rs): the engine schematic is a block
 * of lines of digits, '.' and symbols; `part1` adds every number that has a
 * symbol next to it.  Characters are taken to be ASCII, so a byte index of
 * a line is a character index.
 */
module Day03 {
  import opened Text

  // ---------------------------------------------------------------------
  // Symbols

  /** `slice[start..stop].chars().any(|x| x != '.')` */
  function AnyNotDot(s: string): (b: bool)
    ensures b <==> exists i :: 0 <= i < |s| && s[i] != '.'
  {
    if |s| == 0 then false
    else
      assert forall i :: 0 < i < |s| ==> s[i] == s[1..][i - 1];
      s[0] != '.' || AnyNotDot(s[1..])
  }

  /**
   * `check_slice_symbol`: some character of `slice` in `[start, stop)` is
   * not '.'; `get(start..stop).unwrap()` panics when the range does not fit.
   */
  function CheckSliceSymbol(slice: string, start: nat, stop: nat): (r: Result<bool>)
    ensures r.Ok? <==> start <= stop <= |slice|
    ensures r.Ok? ==> (r.value <==> exists i :: start <= i < stop && slice[i] != '.')
  {
    if start <= stop <= |slice| then
      var part := slice[start..stop];
      assert forall i :: start <= i < stop ==> slice[i] == part[i - start];
      Ok(AnyNotDot(part))
    else Panic(Unwrapped)
  }

  const Unwrapped := "called `Option::unwrap()` on a `None` value"

  /** The character left of a number marks it when it is neither a digit nor '.'. */
  predicate IsSymbol(c: char) {
    !IsDigit(c) && c != '.'
  }

  // ---------------------------------------------------------------------
  // Numbers are maximal runs of digits

  /** The digits `line[start..end]` of one number. */
  datatype Run = Run(start: nat, end: nat)

  /** `run` is a number of `line`: a run of digits with no digit just before or just after it. */
  predicate IsRun(line: string, run: Run) {
    run.start < run.end <= |line|
    && (forall j :: run.start <= j < run.end ==> IsDigit(line[j]))
    && (run.start == 0 || !IsDigit(line[run.start - 1]))
    && (run.end == |line| || !IsDigit(line[run.end]))
  }

  /** Where the run of digits that ends at `i` starts: `i` itself when `line[i - 1]` is no digit. */
  function RunStart(line: string, i: nat): (s: nat)
    requires i <= |line|
    ensures s <= i && (forall j :: s <= j < i ==> IsDigit(line[j])) && (s == 0 || !IsDigit(line[s - 1]))
  {
    if i == 0 || !IsDigit(line[i - 1]) then i else RunStart(line, i - 1)
  }

  /** A run of digits ending at `i` that cannot be extended to the left starts at `RunStart`. */
  lemma {:induction false} RunStartUnique(line: string, i: nat, s: nat)
    requires s <= i <= |line|
    requires forall j :: s <= j < i ==> IsDigit(line[j])
    requires s == 0 || !IsDigit(line[s - 1])
    ensures RunStart(line, i) == s
    decreases i - s
  {
    if s < i {
      RunStartUnique(line, i - 1, s);
    }
  }

  /** The numbers the scan of `part1` has closed before index `i`: those ended by a non-digit left of `i`. */
  function Completed(line: string, i: nat): seq<Run>
    requires i <= |line|
  {
    if i == 0 then []
    else Completed(line, i - 1) + (if Closes(line, i - 1) then [Run(RunStart(line, i - 1), i - 1)] else [])
  }

  /** `line[i]` is the non-digit that ends a number. */
  predicate Closes(line: string, i: nat)
    requires i < |line|
  {
    !IsDigit(line[i]) && i > 0 && IsDigit(line[i - 1])
  }

  /** The line ends with a digit, so its last number is closed after the scan. */
  predicate EndsInDigit(line: string) {
    |line| > 0 && IsDigit(line[|line| - 1])
  }

  /** All the numbers of a line from left to right, in the order `part1` meets them. */
  function AllRuns(line: string): seq<Run> {
    Completed(line, |line|) + (if EndsInDigit(line) then [Run(RunStart(line, |line|), |line|)] else [])
  }

  /** The closed numbers are exactly the runs that end before `i`. */
  lemma {:induction false} CompletedExactly(line: string, i: nat)
    requires i <= |line|
    ensures forall run :: run in Completed(line, i) <==> IsRun(line, run) && run.end < i
  {
    if i > 0 {
      CompletedExactly(line, i - 1);
      forall run | IsRun(line, run) && run.end == i - 1
        ensures Closes(line, i - 1) && run == Run(RunStart(line, i - 1), i - 1)
      {
        RunStartUnique(line, i - 1, run.start);
      }
    }
  }

  /** The numbers of a line are exactly its maximal runs of digits. */
  lemma AllRunsExactly(line: string)
    ensures forall run :: run in AllRuns(line) <==> IsRun(line, run)
  {
    CompletedExactly(line, |line|);
    forall run | IsRun(line, run) && run.end == |line|
      ensures EndsInDigit(line) && run == Run(RunStart(line, |line|), |line|)
    {
      RunStartUnique(line, |line|, run.start);
    }
  }

  /** The numbers closed before `i` come first among all the numbers of a line. */
  lemma {:induction false} CompletedPrefix(line: string, i: nat)
    requires i <= |line|
    ensures |Completed(line, i)| <= |AllRuns(line)| && AllRuns(line)[..|Completed(line, i)|] == Completed(line, i)
    decreases |line| - i
  {
    if i < |line| {
      CompletedPrefix(line, i + 1);
      var c := Completed(line, i);
      assert Completed(line, i + 1)[..|c|] == c;
      assert AllRuns(line)[..|c|] == AllRuns(line)[..|Completed(line, i + 1)|][..|c|];
    }
  }

  // ---------------------------------------------------------------------
  // Which numbers count

  /** The first column of the window around a number: one left of it, but not below 0. */
  function Left(run: Run): nat {
    if run.start == 0 then 0 else run.start - 1
  }

  /** The end of the window: one past the number, but not past the line. */
  function Stop(line: string, run: Run): nat {
    if run.end < |line| then run.end + 1 else |line|
  }

  /**
   * A number of line `y` has a mark next to it: a character other than '.'
   * (a digit too) above or below it in the window, a symbol just left of
   * it, or a character other than '.' just right of it.
   */
  predicate Marked(lines: seq<string>, y: nat, run: Run)
    requires y < |lines| && run.start < run.end <= |lines[y]|
    requires y > 0 ==> Stop(lines[y], run) <= |lines[y - 1]|
    requires y + 1 < |lines| ==> Stop(lines[y], run) <= |lines[y + 1]|
  {
    var line := lines[y];
    (y > 0 && NotDotIn(lines[y - 1], Left(run), Stop(line, run)))
    || IsSymbol(line[Left(run)])
    || (run.end < |line| && line[run.end] != '.')
    || (y + 1 < |lines| && NotDotIn(lines[y + 1], Left(run), Stop(line, run)))
  }

  /** Some character of `s` in `[lo, hi)` is not '.'. */
  predicate NotDotIn(s: string, lo: nat, hi: nat)
    requires hi <= |s|
  {
    exists x :: lo <= x < hi && s[x] != '.'
  }

  /**
   * `has_neighboring_symbol` for a number of line `y`: the checks above and
   * below panic when that line is too short for the window.
   */
  function Counted(lines: seq<string>, y: nat, run: Run): (r: Result<bool>)
    requires y < |lines| && run.start < run.end <= |lines[y]|
    ensures r.Ok? <==> (y > 0 ==> Stop(lines[y], run) <= |lines[y - 1]|) && (y + 1 < |lines| ==> Stop(lines[y], run) <= |lines[y + 1]|)
    ensures r.Ok? ==> (r.value <==> Marked(lines, y, run))
  {
    var line := lines[y];
    var upper := if y > 0 then CheckSliceSymbol(lines[y - 1], Left(run), Stop(line, run)) else Ok(false);
    var lower := if y + 1 < |lines| then CheckSliceSymbol(lines[y + 1], Left(run), Stop(line, run)) else Ok(false);
    if upper.Panic? then upper
    else if lower.Panic? then lower
    else Ok(upper.value || IsSymbol(line[Left(run)]) || (run.end < |line| && line[run.end] != '.') || lower.value)
  }

  /** What a number of line `y` adds to the sum: its value when it is marked, else nothing. */
  function RunValue(lines: seq<string>, y: nat, run: Run): (r: Result<nat>)
    requires y < |lines| && run.start < run.end <= |lines[y]|
  {
    match ParseNumber(lines[y][run.start..run.end])
    case Panic(why) => Panic(why)
    case Ok(v) =>
      match Counted(lines, y, run)
      case Panic(why) => Panic(why)
      case Ok(marked) => Ok(if marked then v else 0)
  }

  /**
   * A number counts with its value exactly when it is marked; reading it
   * panics when it overflows a `usize` or a window does not fit the line
   * above or below.
   */
  lemma RunValueMarked(lines: seq<string>, y: nat, run: Run)
    requires y < |lines| && run.start < run.end <= |lines[y]|
    ensures RunValue(lines, y, run).Ok? <==> ParseNumber(lines[y][run.start..run.end]).Ok? && Counted(lines, y, run).Ok?
    ensures RunValue(lines, y, run).Ok? ==>
      RunValue(lines, y, run).value == if Marked(lines, y, run) then ParseNumber(lines[y][run.start..run.end]).value else 0
  {
  }

  /** `RunValue` for the numbers of line `y`. */
  function ValueIn(lines: seq<string>, y: nat): Run -> Result<nat> {
    (run: Run) => if y < |lines| && run.start < run.end <= |lines[y]| then RunValue(lines, y, run) else Ok(0)
  }

  /** The sum of the marked numbers of line `y`, in reading order. */
  function LineSum(lines: seq<string>, y: nat): Result<nat>
    requires y < |lines|
  {
    SumResults(ValueIn(lines, y), AllRuns(lines[y]))
  }

  /** The sum of the marked numbers of the first `n` lines. */
  function Total(lines: seq<string>, n: nat): Result<nat>
    requires n <= |lines|
  {
    if n == 0 then Ok(0)
    else match Total(lines, n - 1)
      case Panic(why) => Panic(why)
      case Ok(sum) =>
        match LineSum(lines, n - 1)
        case Panic(why) => Panic(why)
        case Ok(v) => Ok(sum + v)
  }

  /** A panic in the first `n` lines is the panic of all of them. */
  lemma {:induction false} TotalPanic(lines: seq<string>, n: nat)
    requires n <= |lines| && Total(lines, n).Panic?
    ensures Total(lines, |lines|) == Total(lines, n)
    decreases |lines| - n
  {
    if n < |lines| {
      TotalPanic(lines, n + 1);
    }
  }

  // ---------------------------------------------------------------------
  // part1

  /**
   * The block of `part1` that closes the number `digits` of line `y`
   * ending at `index`: parses it and gives its value when it is marked.
   * At the end of the line (`index == |line|`) there is no closing
   * character, and the window stops at the end of the line.
   */
  method CloseNumber(lines: seq<string>, y: nat, index: nat, digits: string) returns (r: Result<nat>)
    requires y < |lines| && 0 < |digits| <= index <= |lines[y]|
    requires digits == lines[y][index - |digits|..index]
    ensures r == RunValue(lines, y, Run(index - |digits|, index))
  {
    var line := lines[y];
    var parsed := ParseNumber(digits);
    if parsed.Panic? {
      return Panic(parsed.reason);
    }
    var currentNumber := parsed.value;
    var numberLeftInd := if index < |digits| + 1 then 0 else index - (|digits| + 1);
    var stop := if index < |line| then index + 1 else |line|;
    var hasNeighboringSymbol := false;
    if y > 0 {
      var upper := CheckSliceSymbol(lines[y - 1], numberLeftInd, stop);
      if upper.Panic? {
        return Panic(upper.reason);
      }
      hasNeighboringSymbol := hasNeighboringSymbol || upper.value;
    }
    var leftCharacter := line[numberLeftInd];
    hasNeighboringSymbol := hasNeighboringSymbol || (!IsDigit(leftCharacter) && leftCharacter != '.');
    if index < |line| {
      hasNeighboringSymbol := hasNeighboringSymbol || line[index] != '.';
    }
    if y + 1 < |lines| {
      var lower := CheckSliceSymbol(lines[y + 1], numberLeftInd, stop);
      if lower.Panic? {
        return Panic(lower.reason);
      }
      hasNeighboringSymbol := hasNeighboringSymbol || lower.value;
    }
    if hasNeighboringSymbol {
      return Ok(currentNumber);
    }
    return Ok(0);
  }

  /**
   * A non-digit at `index` of line `y` closes the number held in
   * `current_number_str`, and its value joins the sum `res` of the numbers
   * closed before.
   */
  method CloseAt(lines: seq<string>, y: nat, index: nat, digits: string, res: nat) returns (r: Result<nat>)
    requires y < |lines| && index < |lines[y]| && !IsDigit(lines[y][index])
    requires 0 < |digits| && digits == lines[y][RunStart(lines[y], index)..index]
    requires SumResults(ValueIn(lines, y), Completed(lines[y], index)) == Ok(res)
    ensures r.Ok? ==> SumResults(ValueIn(lines, y), Completed(lines[y], index + 1)) == r
    ensures r.Panic? ==> LineSum(lines, y) == r
  {
    var line := lines[y];
    var run := Run(index - |digits|, index);
    ClosedRun(line, index, run.start);
    CompletedPrefix(line, index + 1);
    var v := CloseNumber(lines, y, index, digits);
    assert ValueIn(lines, y)(run) == v;
    SumClose(ValueIn(lines, y), AllRuns(line), Completed(line, index), run, res, v);
    if v.Panic? {
      return v;
    }
    return Ok(res + v.value);
  }

  /** The number a line ends with is closed after the scan, completing the sum of the line. */
  method CloseLast(lines: seq<string>, y: nat, digits: string, res: nat) returns (r: Result<nat>)
    requires y < |lines| && 0 < |digits| && digits == lines[y][RunStart(lines[y], |lines[y]|)..|lines[y]|]
    requires SumResults(ValueIn(lines, y), Completed(lines[y], |lines[y]|)) == Ok(res)
    ensures r == LineSum(lines, y)
  {
    var line := lines[y];
    var run := Run(|line| - |digits|, |line|);
    LastRun(line, run.start);
    var v := CloseNumber(lines, y, |line|, digits);
    assert ValueIn(lines, y)(run) == v;
    assert AllRuns(line)[..|AllRuns(line)|] == AllRuns(line);
    SumClose(ValueIn(lines, y), AllRuns(line), Completed(line, |line|), run, res, v);
    if v.Panic? {
      return v;
    }
    return Ok(res + v.value);
  }

  /** A non-digit after a run of digits closes that run. */
  lemma ClosedRun(line: string, i: nat, s: nat)
    requires s < i < |line| && s == RunStart(line, i) && !IsDigit(line[i])
    ensures Completed(line, i + 1) == Completed(line, i) + [Run(s, i)]
  {
    assert Closes(line, i);
  }

  /** A line ending in a digit ends with the number that starts where that run of digits does. */
  lemma LastRun(line: string, s: nat)
    requires s < |line| && s == RunStart(line, |line|)
    ensures AllRuns(line) == Completed(line, |line|) + [Run(s, |line|)]
  {
    assert EndsInDigit(line);
  }

  /**
   * One more item adds its value to a sum, or makes it panic; a panic
   * there is the panic of every sequence that continues that way.
   */
  lemma SumClose<T>(f: T -> Result<nat>, all: seq<T>, done: seq<T>, x: T, sum: nat, v: Result<nat>)
    requires SumResults(f, done) == Ok(sum) && f(x) == v
    requires |done| < |all| && all[..|done| + 1] == done + [x]
    ensures v.Ok? ==> SumResults(f, done + [x]) == Ok(sum + v.value)
    ensures v.Panic? ==> SumResults(f, all) == v
  {
    assert (done + [x])[..|done|] == done;
    if v.Panic? {
      SumResultsPanic(f, all, |done| + 1);
    }
  }

  /**
   * The scan of one line in `part1`: collects digits into
   * `current_number_str` and closes the number at each non-digit and at
   * the end of the line.
   */
  method ScanLine(lines: seq<string>, y: nat) returns (r: Result<nat>)
    requires y < |lines|
    ensures r == LineSum(lines, y)
  {
    var line := lines[y];
    var currentNumberStr := "";
    var res := 0;
    for index := 0 to |line|
      invariant currentNumberStr == line[RunStart(line, index)..index]
      invariant SumResults(ValueIn(lines, y), Completed(line, index)) == Ok(res)
    {
      var c := line[index];
      if !IsDigit(c) {
        var v := EndRun(lines, y, index, currentNumberStr, res);
        if v.Panic? {
          return v;
        }
        res := v.value;
        currentNumberStr := "";
        continue;
      }
      ExtendRun(line, index, currentNumberStr);
      currentNumberStr := currentNumberStr + [c];
    }
    if currentNumberStr != "" {
      r := CloseLast(lines, y, currentNumberStr, res);
      return;
    }
    ScanEnd(line);
    return Ok(res);
  }

  /**
   * A non-digit in the scan of a line: closes the number collected so far,
   * if there is one, and starts an empty run after it.
   */
  method EndRun(lines: seq<string>, y: nat, index: nat, digits: string, res: nat) returns (r: Result<nat>)
    requires y < |lines| && index < |lines[y]| && !IsDigit(lines[y][index])
    requires digits == lines[y][RunStart(lines[y], index)..index]
    requires SumResults(ValueIn(lines, y), Completed(lines[y], index)) == Ok(res)
    ensures RunStart(lines[y], index + 1) == index + 1
    ensures r.Ok? ==> SumResults(ValueIn(lines, y), Completed(lines[y], index + 1)) == r
    ensures r.Panic? ==> LineSum(lines, y) == r
  {
    ScanStep(lines[y], index);
    if digits == "" {
      return Ok(res);
    }
    r := CloseAt(lines, y, index, digits, res);
  }

  /**
   * What the character at `i` does to the scan: a digit extends the
   * current run, anything else ends it, and only a non-digit right after
   * a digit closes a number.
   */
  lemma ScanStep(line: string, i: nat)
    requires i < |line|
    ensures IsDigit(line[i]) ==> RunStart(line, i + 1) == RunStart(line, i) && Completed(line, i + 1) == Completed(line, i)
    ensures !IsDigit(line[i]) ==> RunStart(line, i + 1) == i + 1
    ensures !IsDigit(line[i]) && RunStart(line, i) == i ==> Completed(line, i + 1) == Completed(line, i)
  {
    if !IsDigit(line[i]) && RunStart(line, i) == i {
      assert !Closes(line, i);
    }
  }

  /** A digit adds itself to the run being collected and closes nothing. */
  lemma ExtendRun(line: string, i: nat, digits: string)
    requires i < |line| && IsDigit(line[i]) && digits == line[RunStart(line, i)..i]
    ensures digits + [line[i]] == line[RunStart(line, i + 1)..i + 1]
    ensures Completed(line, i + 1) == Completed(line, i)
  {
    ScanStep(line, i);
    assert line[RunStart(line, i)..i + 1] == digits + [line[i]];
  }

  /** A line that does not end in a digit has closed all its numbers after the scan. */
  lemma ScanEnd(line: string)
    requires RunStart(line, |line|) == |line|
    ensures AllRuns(line) == Completed(line, |line|)
  {
    assert !EndsInDigit(line);
  }

  /** One round of the line loop of `part1`: adds the sum of line `y` to `res`. */
  method AddLine(lines: seq<string>, y: nat, res: nat) returns (r: Result<nat>)
    requires y < |lines| && Total(lines, y) == Ok(res)
    ensures r.Ok? ==> Total(lines, y + 1) == r
    ensures r.Panic? ==> Total(lines, |lines|) == r
  {
    var sum := ScanLine(lines, y);
    if sum.Panic? {
      TotalPanic(lines, y + 1);
      return sum;
    }
    return Ok(res + sum.value);
  }

  /** `part1`: the marked numbers of all lines before the first empty one, added up. */
  method Part1(contents: string) returns (r: Result<nat>)
    ensures r == Total(Lines(contents), |Lines(contents)|)
  {
    var lines := Lines(contents);
    var res := 0;
    for lineNum := 0 to |lines|
      invariant Total(lines, lineNum) == Ok(res)
    {
      var next := AddLine(lines, lineNum, res);
      if next.Panic? {
        return next;
      }
      res := next.value;
    }
    return Ok(res);
  }
}
