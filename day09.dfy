/**
 * Day 9, "Mirage Maintenance" (src/bin/day09.rs): each line is a history of
 * values; repeatedly taking differences until they are all zero lets
 * `part1` extrapolate the next value and `part2` the value before the
 * first, and each part adds up its extrapolations.
 */
module Day09 {
  import opened Text

  // ---------------------------------------------------------------------
  // Differences

  /** Every value is zero (true of the empty sequence). */
  predicate AllZero(s: seq<int>) {
    forall x :: x in s ==> x == 0
  }

  lemma AllZeroIndex(s: seq<int>)
    ensures AllZero(s) <==> forall i :: 0 <= i < |s| ==> s[i] == 0
  {
    if AllZero(s) {
      forall i | 0 <= i < |s|
        ensures s[i] == 0
      {
        assert s[i] in s;
      }
    }
    if forall i :: 0 <= i < |s| ==> s[i] == 0 {
      forall x | x in s
        ensures x == 0
      {
        var i :| 0 <= i < |s| && s[i] == x;
      }
    }
  }

  /** `iter().map_windows(|[x, y]| *y - *x)`: the differences of neighbouring values. */
  function Diffs(s: seq<int>): (d: seq<int>)
    ensures |d| == if |s| == 0 then 0 else |s| - 1
  {
    if |s| == 0 then [] else seq(|s| - 1, i requires 0 <= i < |s| - 1 => s[i + 1] - s[i])
  }

  /** Adding up the differences gives the values back: `Diffs` loses only the first value. */
  lemma {:induction false} DiffsPrefixSum(s: seq<int>, i: nat)
    requires i < |s|
    ensures s[i] == s[0] + Sum(Diffs(s)[..i])
  {
    if i > 0 {
      DiffsPrefixSum(s, i - 1);
      assert Diffs(s)[..i][..i - 1] == Diffs(s)[..i - 1];
    }
  }

  /** The differences are all zero exactly when the values are all the same. */
  lemma DiffsZero(s: seq<int>)
    requires |s| > 0
    ensures AllZero(Diffs(s)) <==> forall i :: 0 <= i < |s| ==> s[i] == s[0]
  {
    AllZeroIndex(Diffs(s));
    if AllZero(Diffs(s)) {
      forall i | 0 <= i < |s|
        ensures s[i] == s[0]
      {
        DiffsPrefixSum(s, i);
        SumZero(Diffs(s)[..i]);
      }
    }
  }

  lemma {:induction false} SumZero(s: seq<int>)
    requires AllZero(s)
    ensures Sum(s) == 0
  {
    if |s| > 0 {
      AllZeroIndex(s);
      AllZeroIndex(s[..|s| - 1]);
      SumZero(s[..|s| - 1]);
    }
  }

  // ---------------------------------------------------------------------
  // Extrapolation

  const NoValue := "called `Option::unwrap()` on a `None` value"

  /**
   * The value `part1` predicts after `s`: the last value of each sequence
   * of differences added up, down to the first sequence that is all zero.
   * Differences that run out first make the `unwrap` of the last value panic.
   */
  function NextValue(s: seq<int>): Result<int>
    requires |s| > 0
    decreases |s|
  {
    if AllZero(s) then Ok(s[|s| - 1])
    else
      var d := Diffs(s);
      if |d| == 0 then Panic(NoValue)
      else
        match NextValue(d)
        case Panic(why) => Panic(why)
        case Ok(v) => Ok(s[|s| - 1] + v)
  }

  /**
   * The value `part2` predicts before `s`: the first value of each sequence
   * of differences, folded from the deepest one as `first - acc`.
   */
  function PrevValue(s: seq<int>): Result<int>
    requires |s| > 0
    decreases |s|
  {
    if AllZero(s) then Ok(s[0])
    else
      var d := Diffs(s);
      if |d| == 0 then Panic(NoValue)
      else
        match PrevValue(d)
        case Panic(why) => Panic(why)
        case Ok(v) => Ok(s[0] - v)
  }

  /** A single value other than zero has no differences to reach zero with, so both parts panic. */
  lemma SingleNonzeroPanics(a: int)
    requires a != 0
    ensures NextValue([a]).Panic? && PrevValue([a]).Panic?
  {
    assert !AllZero([a]) by {
      assert a in [a];
    }
  }

  /** A history of one repeated value other than zero predicts that value both ways. */
  lemma ConstantPredicts(s: seq<int>)
    requires |s| >= 2 && s[0] != 0 && forall i :: 0 <= i < |s| ==> s[i] == s[0]
    ensures NextValue(s) == Ok(s[0]) && PrevValue(s) == Ok(s[0])
  {
    DiffsZero(s);
    assert !AllZero(s) by {
      assert s[0] in s;
    }
  }

  function Reverse(s: seq<int>): (r: seq<int>)
    ensures |r| == |s|
  {
    seq(|s|, i requires 0 <= i < |s| => s[|s| - 1 - i])
  }

  function Negate(s: seq<int>): (r: seq<int>)
    ensures |r| == |s|
  {
    seq(|s|, i requires 0 <= i < |s| => -s[i])
  }

  function NegateResult(r: Result<int>): Result<int> {
    match r
    case Panic(why) => Panic(why)
    case Ok(v) => Ok(-v)
  }

  lemma DiffsReverse(s: seq<int>)
    ensures Diffs(Reverse(s)) == Negate(Reverse(Diffs(s)))
  {
  }

  lemma DiffsNegate(s: seq<int>)
    ensures Diffs(Negate(s)) == Negate(Diffs(s))
  {
  }

  /** Extrapolation commutes with negating every value. */
  lemma {:induction false} NextNegate(s: seq<int>)
    requires |s| > 0
    ensures NextValue(Negate(s)) == NegateResult(NextValue(s))
    decreases |s|
  {
    assert AllZero(Negate(s)) <==> AllZero(s) by {
      AllZeroIndex(s);
      AllZeroIndex(Negate(s));
      assert forall i :: 0 <= i < |s| ==> (Negate(s)[i] == 0 <==> s[i] == 0);
    }
    if !AllZero(s) && |Diffs(s)| > 0 {
      DiffsNegate(s);
      NextNegate(Diffs(s));
    }
  }

  /**
   * Extrapolating backwards is extrapolating forwards on the reversed
   * history: `part2` predicts what `part1` would for the values read from
   * right to left, panicking on the same histories.
   */
  lemma {:induction false} PrevIsNextReversed(s: seq<int>)
    requires |s| > 0
    ensures PrevValue(s) == NextValue(Reverse(s))
    decreases |s|
  {
    AllZeroReverse(s);
    if !AllZero(s) && |s| > 1 {
      var d := Diffs(s);
      PrevUnfold(s);
      NextUnfold(Reverse(s));
      DiffsReverse(s);
      NextNegate(Reverse(d));
      PrevIsNextReversed(d);
    }
  }

  lemma AllZeroReverse(s: seq<int>)
    ensures AllZero(Reverse(s)) <==> AllZero(s)
  {
    AllZeroIndex(s);
    AllZeroIndex(Reverse(s));
    assert forall i :: 0 <= i < |s| ==> Reverse(s)[|s| - 1 - i] == s[i];
  }

  lemma PrevUnfold(s: seq<int>)
    requires |s| > 1 && !AllZero(s)
    ensures PrevValue(s) == if PrevValue(Diffs(s)).Panic? then PrevValue(Diffs(s)) else Ok(s[0] - PrevValue(Diffs(s)).value)
  {
  }

  lemma NextUnfold(s: seq<int>)
    requires |s| > 1 && !AllZero(s)
    ensures NextValue(s) == AddTo(s[|s| - 1], NextValue(Diffs(s)))
  {
  }

  // ---------------------------------------------------------------------
  // The loops over the sequences of differences

  /** `base` added to a value that may have panicked. */
  function AddTo(base: int, r: Result<int>): Result<int> {
    match r
    case Panic(why) => Panic(why)
    case Ok(v) => Ok(base + v)
  }

  /** `fs.iter().rev().fold(acc, |acc, new| new - acc)` */
  function RevFold(fs: seq<int>, acc: int): int {
    if |fs| == 0 then acc else RevFold(fs[..|fs| - 1], fs[|fs| - 1] - acc)
  }

  /** The rest of the fold applied to a value that may have panicked. */
  function FoldInto(fs: seq<int>, r: Result<int>): Result<int> {
    match r
    case Panic(why) => Panic(why)
    case Ok(v) => Ok(RevFold(fs, v))
  }

  lemma RevFoldSnoc(fs: seq<int>, c: int, acc: int)
    ensures RevFold(fs + [c], acc) == RevFold(fs, c - acc)
  {
    assert (fs + [c])[..|fs|] == fs;
  }

  /** One more level of differences moves one more first value into the fold. */
  lemma FoldIntoStep(fs: seq<int>, s: seq<int>)
    requires |s| > 1 && !AllZero(s)
    ensures FoldInto(fs, PrevValue(s)) == FoldInto(fs + [s[0]], PrevValue(Diffs(s)))
  {
    var r := PrevValue(Diffs(s));
    PrevUnfold(s);
    if r.Ok? {
      RevFoldSnoc(fs, s[0], r.value);
    }
  }

  /** One more level of differences moves one more last value into the sum. */
  lemma AddToStep(front: seq<int>, s: seq<int>)
    requires |s| > 1 && !AllZero(s)
    ensures AddTo(Sum(front), NextValue(s)) == AddTo(Sum(front + [s[|s| - 1]]), NextValue(Diffs(s)))
  {
    var x, rest := s[|s| - 1], NextValue(Diffs(s));
    NextUnfold(s);
    SumAppend(front, x);
    AddToAssoc(Sum(front), x, rest);
  }

  /** Adding `x` before or after the result makes no difference. */
  lemma AddToAssoc(a: int, x: int, r: Result<int>)
    ensures AddTo(a, AddTo(x, r)) == AddTo(a + x, r)
  {
  }

  /** The body of the line loop of `part1`: the last values of the differences, added up. */
  method Extrapolate(history: seq<int>) returns (r: Result<int>)
    requires |history| > 0
    ensures r == NextValue(history)
  {
    var current := history;
    var lastNumbers := [history[|history| - 1]];
    ghost var front: seq<int> := [];
    while !AllZero(current)
      invariant |current| > 0 && lastNumbers == front + [current[|current| - 1]]
      invariant NextValue(history) == AddTo(Sum(front), NextValue(current))
      decreases |current|
    {
      ghost var previous := current;
      current := Diffs(current);
      if |current| == 0 {
        return Panic(NoValue);
      }
      AddToStep(front, previous);
      front := lastNumbers;
      lastNumbers := lastNumbers + [current[|current| - 1]];
    }
    SumAppend(front, current[|current| - 1]);
    return Ok(Sum(lastNumbers));
  }

  /** The body of the line loop of `part2`: the first values of the differences, folded. */
  method ExtrapolateBack(history: seq<int>) returns (r: Result<int>)
    requires |history| > 0
    ensures r == PrevValue(history)
  {
    var current := history;
    var firstNumbers := [history[0]];
    ghost var front: seq<int> := [];
    while !AllZero(current)
      invariant |current| > 0 && firstNumbers == front + [current[0]]
      invariant PrevValue(history) == FoldInto(front, PrevValue(current))
      decreases |current|
    {
      ghost var previous := current;
      current := Diffs(current);
      if |current| == 0 {
        return Panic(NoValue);
      }
      FoldIntoStep(front, previous);
      front := firstNumbers;
      firstNumbers := firstNumbers + [current[0]];
    }
    RevFoldSnoc(front, current[0], 0);
    return Ok(RevFold(firstNumbers, 0));
  }

  // ---------------------------------------------------------------------
  // part1 and part2

  /** `x.parse::<isize>().unwrap()` */
  function ParseValue(token: string): Result<int> {
    match ParseIsize(token)
    case None => Panic("invalid digit found in string")
    case Some(v) => Ok(v)
  }

  /** The value a part predicts for one line: after it, or before it when `backwards`. */
  function LineValue(line: string, backwards: bool): Result<int> {
    match MapResults(ParseValue, Split(line, ' '))
    case Panic(why) => Panic(why)
    case Ok(history) => if backwards then PrevValue(history) else NextValue(history)
  }

  /** The predictions for `lines` added up, panicking at the first line that panics. */
  function Total(lines: seq<string>, backwards: bool): Result<int> {
    TotalOf(lines, |lines|, backwards)
  }

  /** The total of the first `k` lines. */
  function TotalOf(lines: seq<string>, k: nat, backwards: bool): Result<int>
    requires k <= |lines|
  {
    if k == 0 then Ok(0)
    else
      match TotalOf(lines, k - 1, backwards)
      case Panic(why) => Panic(why)
      case Ok(sum) => AddTo(sum, LineValue(lines[k - 1], backwards))
  }

  /** One more line adds its prediction to the total of the lines before it. */
  lemma TotalNext(lines: seq<string>, backwards: bool, i: nat, sum: int)
    requires i < |lines| && TotalOf(lines, i, backwards) == Ok(sum) && LineValue(lines[i], backwards).Ok?
    ensures TotalOf(lines, i + 1, backwards) == Ok(sum + LineValue(lines[i], backwards).value)
  {
  }

  /** A line that panics after lines that did not makes its panic the total of all the lines. */
  lemma TotalStop(lines: seq<string>, backwards: bool, i: nat, sum: int)
    requires i < |lines| && TotalOf(lines, i, backwards) == Ok(sum) && LineValue(lines[i], backwards).Panic?
    ensures Total(lines, backwards) == LineValue(lines[i], backwards)
  {
    TotalPanic(lines, backwards, i + 1, |lines|);
  }

  /** Once the first `k` lines panic, the total of more lines panics the same way. */
  lemma {:induction false} TotalPanic(lines: seq<string>, backwards: bool, k: nat, n: nat)
    requires k <= n <= |lines| && TotalOf(lines, k, backwards).Panic?
    ensures TotalOf(lines, n, backwards) == TotalOf(lines, k, backwards)
  {
    if k < n {
      TotalPanic(lines, backwards, k, n - 1);
    }
  }

  /** The prediction for one line, computed by the loops of the part. */
  method PredictLine(line: string, backwards: bool) returns (r: Result<int>)
    ensures r == LineValue(line, backwards)
  {
    var history := MapResults(ParseValue, Split(line, ' '));
    if history.Panic? {
      return Panic(history.reason);
    }
    if backwards {
      r := ExtrapolateBack(history.value);
    } else {
      r := Extrapolate(history.value);
    }
  }

  /** The line loop shared by `part1` and `part2`. */
  method Solve(contents: string, backwards: bool) returns (r: Result<int>)
    ensures r == Total(Lines(contents), backwards)
  {
    r := SolveLines(Lines(contents), backwards);
  }

  /** The loop of `Solve` over the non-empty lines of the input. */
  method SolveLines(lines: seq<string>, backwards: bool) returns (r: Result<int>)
    ensures r == Total(lines, backwards)
  {
    var res := 0;
    for i := 0 to |lines|
      invariant TotalOf(lines, i, backwards) == Ok(res)
    {
      var next := AddLine(lines, backwards, i, res);
      if next.Panic? {
        return next;
      }
      res := res + next.value;
    }
    return Ok(res);
  }

  /**
   * One turn of the line loop: the prediction for line `i`, which either
   * extends the running total or, as a panic, is the result of the whole.
   */
  method AddLine(lines: seq<string>, backwards: bool, i: nat, res: int) returns (next: Result<int>)
    requires i < |lines| && TotalOf(lines, i, backwards) == Ok(res)
    ensures next.Ok? ==> TotalOf(lines, i + 1, backwards) == Ok(res + next.value)
    ensures next.Panic? ==> Total(lines, backwards) == next
  {
    next := PredictLine(lines[i], backwards);
    if next.Panic? {
      TotalStop(lines, backwards, i, res);
    } else {
      TotalNext(lines, backwards, i, res);
    }
  }

  /** `part1`: the next values of all histories added up. */
  method Part1(contents: string) returns (r: Result<int>)
    ensures r == Total(Lines(contents), false)
  {
    r := Solve(contents, false);
  }

  /** `part2`: the values before all histories added up. */
  method Part2(contents: string) returns (r: Result<int>)
    ensures r == Total(Lines(contents), true)
  {
    r := Solve(contents, true);
  }
}
