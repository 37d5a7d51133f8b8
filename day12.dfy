/**
 * Day 12, "Hot Springs" (src/bin/day12.rs): each row of the record lists
 * springs that are operational ('.'), damaged ('#') or unknown ('?'),
 * followed by the sizes of the groups of damaged springs.  `part1` adds up,
 * row by row, the value of a table that combines the placements of one
 * group at a time.
 */
module Day12 {
  import opened Text

  // ---------------------------------------------------------------------
  // Placing one group: `ways_to_fit`

  /** A spring that may be damaged: '?' or '#'. */
  predicate MayBeDamaged(c: char) { c == '?' || c == '#' }

  /** Every spring of `s` may be damaged. */
  predicate AllMayBeDamaged(s: string) {
    forall j :: 0 <= j < |s| ==> MayBeDamaged(s[j])
  }

  /**
   * A group of `g` damaged springs may start at `i`: the spring there may be
   * damaged, the `g` springs from `i` lie inside the row and may all be
   * damaged, and no spring after them is known to be damaged.
   */
  predicate Fits(line: string, g: nat, i: nat)
    requires i < |line|
  {
    MayBeDamaged(line[i]) && i + g <= |line| && AllMayBeDamaged(line[i..i + g]) && '#' !in line[i + g..]
  }

  /** The starts below `n` where a group of `g` fits. */
  function CountFits(line: string, g: nat, n: nat): (count: nat)
    requires n <= |line|
    ensures count <= n
  {
    if n == 0 then 0 else CountFits(line, g, n - 1) + (if Fits(line, g, n - 1) then 1 else 0)
  }

  /** The starts the scan of `ways_to_fit` looks at: up to and including the first '#'. */
  function Scanned(line: string): (n: nat)
    ensures n <= |line|
    ensures '#' !in line[..n] || (0 < n && line[n - 1] == '#' && '#' !in line[..n - 1])
  {
    match IndexOf(line, '#')
    case None => |line|
    case Some(k) => k + 1
  }

  /** The value of `ways_to_fit(line, g)`. */
  function Ways(line: string, g: nat): (n: nat)
    ensures n <= |line|
  {
    CountFits(line, g, Scanned(line))
  }

  /**
   * `ways_to_fit`: counts the starts where a group of `g` fits, scanning
   * the row from the left and stopping after the first '#'.
   */
  method WaysToFit(line: string, g: nat) returns (numConfigs: nat)
    ensures numConfigs == Ways(line, g)
  {
    numConfigs := 0;
    for index := 0 to |line|
      invariant numConfigs == CountFits(line, g, index)
      invariant '#' !in line[..index]
    {
      var c := line[index];
      if c == '?' || c == '#' {
        var windowFits := index + g <= |line| && AllMayBeDamaged(line[index..index + g]);
        var trailingClear := index + g > |line| || '#' !in line[index + g..];
        assert windowFits && trailingClear <==> Fits(line, g, index);
        if windowFits && trailingClear {
          numConfigs := numConfigs + 1;
        }
      }
      if c == '#' {
        assert line[..index + 1] == line[..index] + [c];
        IndexOfFirst(line, '#', index);
        assert Scanned(line) == index + 1;
        return;
      }
      assert line[..index + 1] == line[..index] + [c];
    }
    assert line[..|line|] == line;
    assert IndexOf(line, '#').None?;
    assert Scanned(line) == |line|;
  }

  /** A group longer than the row fits nowhere. */
  lemma {:induction false} CountFitsTooLong(line: string, g: nat, n: nat)
    requires n <= |line| < g
    ensures CountFits(line, g, n) == 0
  {
    if n > 0 {
      CountFitsTooLong(line, g, n - 1);
    }
  }

  lemma WaysTooLong(line: string, g: nat)
    requires |line| < g
    ensures Ways(line, g) == 0
  {
    CountFitsTooLong(line, g, Scanned(line));
  }

  /** `Fits` cell by cell. */
  lemma FitsAt(line: string, g: nat, i: nat)
    requires i < |line| && i + g <= |line| && MayBeDamaged(line[i])
    requires forall j :: i <= j < i + g ==> MayBeDamaged(line[j])
    requires forall j :: i + g <= j < |line| ==> line[j] != '#'
    ensures Fits(line, g, i)
  {
    assert forall j :: i <= j < i + g ==> line[i..i + g][j - i] == line[j];
    assert forall j :: i + g <= j < |line| ==> line[i + g..][j - (i + g)] == line[j];
  }

  /** The unit test `ways_to_fit("?#??...", 3) == 2`. */
  lemma WaysExampleTwo()
    ensures Ways("?#??...", 3) == 2
  {
    var a := "?#??...";
    assert a[1] == '#' && '#' !in a[..1];
    IndexOfFirst(a, '#', 1);
    FitsAt(a, 3, 0);
    FitsAt(a, 3, 1);
  }

  /** The unit test `ways_to_fit("???.###", 3) == 1`. */
  lemma WaysExampleOne()
    ensures Ways("???.###", 3) == 1
  {
    var b := "???.###";
    assert b[4] == '#' && '#' !in b[..4];
    IndexOfFirst(b, '#', 4);
    NoFitBeforeDot();
    forall j | 4 <= j < 7
      ensures MayBeDamaged(b[j])
    {
      assert j == 4 || j == 5 || j == 6;
    }
    FitsAt(b, 3, 4);
    assert CountFits(b, 3, 5) == 1;
  }

  /** In "???.###" no group of 3 fits before the '.' or on it. */
  lemma NoFitBeforeDot()
    ensures CountFits("???.###", 3, 4) == 0
  {
    var b := "???.###";
    assert !Fits(b, 3, 0) by {
      assert b[3..][3] == '#';
    }
    assert CountFits(b, 3, 1) == 0;
    assert !Fits(b, 3, 1) by {
      assert b[1..4][2] == '.';
    }
    assert CountFits(b, 3, 2) == 0;
    assert !Fits(b, 3, 2) by {
      assert b[2..5][1] == '.';
    }
    assert CountFits(b, 3, 3) == 0;
    assert !Fits(b, 3, 3);
  }

  // ---------------------------------------------------------------------
  // The table of `count_configurations`

  /**
   * Row `y` of the table, one cell per prefix `line[..x + 1]`: row 0 holds
   * the placements of the first group in the prefix; a later row is 0 in
   * its first two cells and otherwise holds the best candidate of `Best`
   * over the row above.
   */
  function Row(line: string, sizes: seq<nat>, y: nat): (row: seq<nat>)
    requires y < |sizes|
    ensures |row| == |line|
  {
    if y == 0 then seq(|line|, x requires 0 <= x < |line| => Ways(line[..x + 1], sizes[0]))
    else
      var above := Row(line, sizes, y - 1);
      seq(|line|, x requires 0 <= x < |line| => if x < 2 then 0 else Best(above, line, sizes[y], x, x - 1))
  }

  /**
   * Whether `count_configurations` skips split point `i`: the cell above
   * is 0 or the spring right after `i` is damaged.
   */
  predicate Skipped(above: seq<nat>, line: string, i: nat)
    requires i < |above| && i + 1 < |line|
  {
    above[i] == 0 || line[i + 1] == '#'
  }

  /**
   * The candidate of split point `i` for the cell of prefix `line[..x + 1]`:
   * the cell above at `i` times the placements of a group of `g` in
   * `line[i + 2..x + 1]`.
   */
  function Candidate(above: seq<nat>, line: string, g: nat, x: nat, i: nat): nat
    requires i < |above| && i + 1 < x < |line|
  {
    above[i] * Ways(line[i + 2..x + 1], g)
  }

  /** The largest candidate of the split points below `n` that are not skipped, or 0. */
  function Best(above: seq<nat>, line: string, g: nat, x: nat, n: nat): nat
    requires |above| == |line| && x < |line| && n < x
  {
    if n == 0 then 0
    else
      var m := Best(above, line, g, x, n - 1);
      if Skipped(above, line, n - 1) then m
      else if m < Candidate(above, line, g, x, n - 1) then Candidate(above, line, g, x, n - 1)
      else m
  }

  /**
   * `Best` is the maximum of the candidates that are not skipped: none is
   * larger, and unless it is 0 it is one of them.
   */
  lemma {:induction false} BestIsMax(above: seq<nat>, line: string, g: nat, x: nat, n: nat)
    requires |above| == |line| && x < |line| && n < x
    ensures forall i :: 0 <= i < n && !Skipped(above, line, i) ==>
      Candidate(above, line, g, x, i) <= Best(above, line, g, x, n)
    ensures var m := Best(above, line, g, x, n);
      m == 0 || exists i :: 0 <= i < n && !Skipped(above, line, i) && m == Candidate(above, line, g, x, i)
  {
    if n > 0 {
      BestIsMax(above, line, g, x, n - 1);
      var m, m' := Best(above, line, g, x, n - 1), Best(above, line, g, x, n);
      var k := n - 1;
      if Skipped(above, line, k) {
        assert m' == m;
      } else {
        var c := Candidate(above, line, g, x, k);
        assert m' == if m < c then c else m;
        if m < c {
          assert m' == c && !Skipped(above, line, k);
        }
      }
    }
  }

  /** The value of `count_configurations`: the last cell, or a panic for an empty row or group list. */
  function Configurations(line: string, sizes: seq<nat>): Result<nat> {
    if |line| == 0 || |sizes| == 0 then
      Panic(if |line| == 0 then "attempt to subtract with overflow" else "index out of bounds")
    else Ok(Row(line, sizes, |sizes| - 1)[|line| - 1])
  }

  /**
   * The loop over split points of `count_configurations` for the cell of
   * prefix `line[..x + 1]` in row `y`, reading row `y - 1` of `memo`.
   */
  method BestSplit(memo: array2<nat>, line: string, g: nat, y: nat, x: nat, ghost above: seq<nat>) returns (maxConfigs: nat)
    requires 0 < y < memo.Length0 && memo.Length1 == |line| == |above| && 2 <= x < |line|
    requires forall i :: 0 <= i < |line| ==> memo[y - 1, i] == above[i]
    ensures maxConfigs == Best(above, line, g, x, x - 1)
  {
    maxConfigs := 0;
    for i := 0 to x - 1
      invariant maxConfigs == Best(above, line, g, x, i)
    {
      var previous := memo[y - 1, i];
      if previous == 0 || line[i + 1] == '#' {
        continue;
      }
      var newWays := WaysToFit(line[i + 2..x + 1], g);
      maxConfigs := if maxConfigs < previous * newWays then previous * newWays else maxConfigs;
    }
  }

  /**
   * `count_configurations`: fills the table row by row in an `Array2D`
   * that starts out all 0 and returns its last cell.
   */
  method CountConfigurations(line: string, sizes: seq<nat>) returns (r: Result<nat>)
    ensures r == Configurations(line, sizes)
  {
    var width, height := |line|, |sizes|;
    var memo := new nat[height, width]((y, x) => 0);
    for x := 0 to width
      invariant height > 0 ==> forall x' :: 0 <= x' < x ==> memo[0, x'] == Row(line, sizes, 0)[x']
      invariant forall y, x' :: 1 <= y < height && 0 <= x' < width ==> memo[y, x'] == 0
    {
      if height == 0 {
        return Panic("index out of bounds");
      }
      var ways := WaysToFit(line[..x + 1], sizes[0]);
      memo[0, x] := ways;
    }
    assert height > 0 ==> RowIs(memo, 0, Row(line, sizes, 0));
    for y := 1 to if height == 0 then 1 else height
      invariant forall y' :: 0 <= y' < y && y' < height ==> RowIs(memo, y', Row(line, sizes, y'))
      invariant forall y' :: y <= y' < height ==> RowZero(memo, y')
    {
      label before:
      FillRow(memo, line, sizes, y);
      forall y' | 0 <= y' < height && y' != y
        ensures old@before(RowIs(memo, y', Row(line, sizes, y'))) ==> RowIs(memo, y', Row(line, sizes, y'))
        ensures old@before(RowZero(memo, y')) ==> RowZero(memo, y')
      {
      }
    }
    if height == 0 || width == 0 {
      return Panic(if width == 0 then "attempt to subtract with overflow" else "index out of bounds");
    }
    assert RowIs(memo, height - 1, Row(line, sizes, height - 1));
    return Ok(memo[height - 1, width - 1]);
  }

  /** Row `y` of `memo` holds `row`. */
  ghost predicate RowIs(memo: array2<nat>, y: nat, row: seq<nat>)
    requires y < memo.Length0
    reads memo
  {
    |row| == memo.Length1 && forall x :: 0 <= x < memo.Length1 ==> memo[y, x] == row[x]
  }

  /** Row `y` of `memo` is still all zero. */
  ghost predicate RowZero(memo: array2<nat>, y: nat)
    requires y < memo.Length0
    reads memo
  {
    forall x :: 0 <= x < memo.Length1 ==> memo[y, x] == 0
  }

  /**
   * The inner loop of `count_configurations` for row `y`: fills the row
   * from column 2 on out of the row above, leaving columns 0 and 1 at 0.
   */
  method FillRow(memo: array2<nat>, line: string, sizes: seq<nat>, y: nat)
    requires 0 < y < memo.Length0 == |sizes| && memo.Length1 == |line|
    requires RowIs(memo, y - 1, Row(line, sizes, y - 1)) && RowZero(memo, y)
    modifies memo
    ensures RowIs(memo, y, Row(line, sizes, y))
    ensures forall y', x :: 0 <= y' < memo.Length0 && y' != y && 0 <= x < memo.Length1 ==> memo[y', x] == old(memo[y', x])
  {
    ghost var above := Row(line, sizes, y - 1);
    ghost var row := Row(line, sizes, y);
    var x := 2;
    while x < |line|
      invariant forall y', x' :: 0 <= y' < memo.Length0 && y' != y && 0 <= x' < memo.Length1 ==> memo[y', x'] == old(memo[y', x'])
      invariant forall x' :: 0 <= x' < |line| ==> memo[y, x'] == (if x' < x then row[x'] else 0)
    {
      var maxConfigs := BestSplit(memo, line, sizes[y], y, x, above);
      memo[y, x] := maxConfigs;
      x := x + 1;
    }
  }

  // ---------------------------------------------------------------------
  // part1

  /**
   * One row of the record: the springs before the first space and the
   * comma-separated group sizes after it; panics without a space or on a
   * size that is not a `usize`.
   */
  function ParseRecord(line: string): Result<(string, seq<nat>)> {
    var parts := Split(line, ' ');
    if |parts| < 2 then Panic("called `Option::unwrap()` on a `None` value")
    else
      match MapResults(ParseNumber, Split(parts[1], ','))
      case Panic(why) => Panic(why)
      case Ok(sizes) => Ok((parts[0], sizes))
  }

  /** What `part1` adds for one row of the record. */
  function RowValue(line: string): Result<nat> {
    match ParseRecord(line)
    case Panic(why) => Panic(why)
    case Ok(record) => Configurations(record.0, record.1)
  }

  /** One round of the loop of `part1`: adds the value of row `i` to `sum`. */
  method AddRow(lines: seq<string>, i: nat, sum: nat) returns (r: Result<nat>)
    requires i < |lines| && SumResults(RowValue, lines[..i]) == Ok(sum)
    ensures r.Ok? ==> SumResults(RowValue, lines[..i + 1]) == r
    ensures r.Panic? ==> SumResults(RowValue, lines) == r
  {
    var value: Result<nat>;
    var record := ParseRecord(lines[i]);
    if record.Panic? {
      value := Panic(record.reason);
    } else {
      value := CountConfigurations(record.value.0, record.value.1);
    }
    if value.Panic? {
      assert lines[..i + 1][..i] == lines[..i];
      SumResultsPanic(RowValue, lines, i + 1);
      return value;
    }
    SumResultsStep(RowValue, lines, i, sum, value.value);
    return Ok(sum + value.value);
  }

  /** `part1`: the values of the rows added up, panicking at the first row that panics. */
  method Part1(contents: string) returns (r: Result<nat>)
    ensures r == SumResults(RowValue, Lines(contents))
  {
    var lines := Lines(contents);
    var res := 0;
    for i := 0 to |lines|
      invariant SumResults(RowValue, lines[..i]) == Ok(res)
    {
      var next := AddRow(lines, i, res);
      if next.Panic? {
        return next;
      }
      res := next.value;
    }
    assert lines[..|lines|] == lines;
    return Ok(res);
  }
}
