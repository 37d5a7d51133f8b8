/**
 * Day 11, "Cosmic Expansion" (src/bin/day11.rs): galaxies ('#') in an image
 * drift apart where a whole row or column is empty; each part adds up the
 * Manhattan distances of all pairs of galaxies after every empty row and
 * column has grown by an extra 1 (part 1) or 999999 (part 2).
 */
module Day11 {
  import opened Text
  import opened Grid

  // ---------------------------------------------------------------------
  // Coordinates

  datatype Coord = Coord(x: nat, y: nat)

  /** `usize::abs_diff` */
  function AbsDiff(a: nat, b: nat): (d: nat)
    ensures a <= b ==> a + d == b
    ensures b <= a ==> b + d == a
  {
    if a < b then b - a else a - b
  }

  /** `Coord::distance_from`: the Manhattan distance. */
  function Distance(a: Coord, b: Coord): nat {
    AbsDiff(a.x, b.x) + AbsDiff(a.y, b.y)
  }

  /** The distance is the same both ways and is 0 exactly between equal coordinates. */
  lemma DistanceMetric(a: Coord, b: Coord)
    ensures Distance(a, b) == Distance(b, a)
    ensures Distance(a, b) == 0 <==> a == b
  {
  }

  /** The distance obeys the triangle inequality. */
  lemma DistanceTriangle(a: Coord, b: Coord, c: Coord)
    ensures Distance(a, c) <= Distance(a, b) + Distance(b, c)
  {
  }

  // ---------------------------------------------------------------------
  // Index lists

  /** The indices `i` with `mask[i]`, in ascending order. */
  function Indices(mask: seq<bool>): (r: seq<nat>)
    ensures forall k :: 0 <= k < |r| ==> r[k] < |mask| && mask[r[k]]
    ensures forall i :: 0 <= i < |mask| && mask[i] ==> i in r
    ensures forall k, l :: 0 <= k < l < |r| ==> r[k] < r[l]
  {
    if |mask| == 0 then []
    else Indices(mask[..|mask| - 1]) + (if mask[|mask| - 1] then [|mask| - 1] else [])
  }

  /** The indices below `v` come first in `Indices(mask)`; all later ones are at least `v`. */
  lemma {:induction false} IndicesPrefix(mask: seq<bool>, v: nat)
    requires v <= |mask|
    ensures |Indices(mask[..v])| <= |Indices(mask)|
    ensures Indices(mask)[..|Indices(mask[..v])|] == Indices(mask[..v])
    ensures forall k :: |Indices(mask[..v])| <= k < |Indices(mask)| ==> Indices(mask)[k] >= v
    decreases |mask| - v
  {
    if v == |mask| {
      assert mask[..v] == mask;
    } else {
      var n := |mask| - 1;
      var front := mask[..n];
      IndicesPrefix(front, v);
      assert front[..v] == mask[..v];
      var p, f := Indices(mask[..v]), Indices(front);
      var all := f + (if mask[n] then [n] else []);
      assert Indices(mask) == all;
      assert all[..|p|] == f[..|p|];
      forall k | |p| <= k < |all| ensures all[k] >= v {
        if k < |f| {
          assert all[k] == f[k];
        }
      }
    }
  }

  /**
   * `iter().take_while(|i| **i < v).count()`: how many items at the front
   * of `s` are below `v`.
   */
  function CountBelow(s: seq<nat>, v: nat): (n: nat)
    ensures n <= |s|
    ensures forall k :: 0 <= k < n ==> s[k] < v
    ensures n < |s| ==> s[n] >= v
  {
    if |s| == 0 || s[0] >= v then 0 else 1 + CountBelow(s[1..], v)
  }

  /** A prefix below `v` followed by an item that is not is what `CountBelow` counts. */
  lemma {:induction false} CountBelowExact(s: seq<nat>, v: nat, m: nat)
    requires m <= |s| && (forall k :: 0 <= k < m ==> s[k] < v) && (m < |s| ==> s[m] >= v)
    ensures CountBelow(s, v) == m
  {
    if m > 0 {
      CountBelowExact(s[1..], v, m - 1);
    }
  }

  /** Counting a larger bound never gives less. */
  lemma {:induction false} CountBelowMonotone(s: seq<nat>, v: nat, w: nat)
    requires v <= w
    ensures CountBelow(s, v) <= CountBelow(s, w)
  {
    if |s| > 0 && s[0] < v {
      CountBelowMonotone(s[1..], v, w);
    }
  }

  /** On an index list, the leading items below `v` are exactly the indices below `v`. */
  lemma CountBelowIndices(mask: seq<bool>, v: nat)
    requires v <= |mask|
    ensures CountBelow(Indices(mask), v) == |Indices(mask[..v])|
  {
    IndicesPrefix(mask, v);
    var s, m := Indices(mask), |Indices(mask[..v])|;
    forall k | 0 <= k < m
      ensures s[k] < v
    {
      assert s[k] == Indices(mask[..v])[k];
    }
    CountBelowExact(s, v, m);
  }

  // ---------------------------------------------------------------------
  // Reading the image

  /** The positions of the galaxies of one line, which is row `y`. */
  function RowStars(line: string, y: nat): seq<Coord> {
    var xs := Indices(HashMask(line));
    seq(|xs|, k requires 0 <= k < |xs| => Coord(xs[k], y))
  }

  /** Which characters of a line are galaxies. */
  function HashMask(line: string): (mask: seq<bool>)
    ensures |mask| == |line|
  {
    seq(|line|, x requires 0 <= x < |line| => line[x] == '#')
  }

  /** The galaxies of row `y` sit exactly at its '#' characters. */
  lemma RowStarsExactly(line: string, y: nat, c: Coord)
    ensures c in RowStars(line, y) <==> c.y == y && c.x < |line| && line[c.x] == '#'
  {
    var xs := Indices(HashMask(line));
    if c.y == y && c.x < |line| && line[c.x] == '#' {
      assert HashMask(line)[c.x];
      var k :| 0 <= k < |xs| && xs[k] == c.x;
      assert RowStars(line, y)[k] == c;
    }
  }

  /** The galaxies of the image, row by row and left to right in each row. */
  function Stars(lines: seq<string>): seq<Coord> {
    if |lines| == 0 then [] else Stars(lines[..|lines| - 1]) + RowStars(lines[|lines| - 1], |lines| - 1)
  }

  /** `Stars` lists exactly the positions of the '#' characters. */
  lemma {:induction false} StarsExactly(lines: seq<string>, c: Coord)
    ensures c in Stars(lines) <==> c.y < |lines| && c.x < |lines[c.y]| && lines[c.y][c.x] == '#'
  {
    if |lines| > 0 {
      var front := lines[..|lines| - 1];
      StarsExactly(front, c);
      RowStarsExactly(lines[|lines| - 1], |lines| - 1, c);
      if c.y < |front| {
        assert front[c.y] == lines[c.y];
      }
    }
  }

  /** The first `x` characters of a row add the galaxies among them. */
  lemma RowStarsStep(line: string, y: nat, x: nat)
    requires x < |line|
    ensures RowStars(line[..x + 1], y) == RowStars(line[..x], y) + (if line[x] == '#' then [Coord(x, y)] else [])
  {
    assert HashMask(line[..x + 1])[..x] == HashMask(line[..x]);
  }

  /** The loop of `part1` that collects the galaxies. */
  method FindStars(lines: seq<string>) returns (stars: seq<Coord>)
    ensures stars == Stars(lines)
  {
    stars := [];
    for y := 0 to |lines|
      invariant stars == Stars(lines[..y])
    {
      var line := lines[y];
      for x := 0 to |line|
        invariant stars == Stars(lines[..y]) + RowStars(line[..x], y)
      {
        if line[x] == '#' {
          stars := stars + [Coord(x, y)];
        }
        RowStarsStep(line, y, x);
      }
      assert line[..|line|] == line;
      assert lines[..y + 1][..y] == lines[..y];
    }
    assert lines[..|lines|] == lines;
  }

  // ---------------------------------------------------------------------
  // Empty rows and columns

  /** Which rows hold only '.'. */
  function RowMask(lines: seq<string>): (mask: seq<bool>)
    ensures |mask| == |lines|
  {
    seq(|lines|, y requires 0 <= y < |lines| => forall x :: 0 <= x < |lines[y]| ==> lines[y][x] == '.')
  }

  /** The indices of the rows that hold only '.'. */
  function BlankRows(lines: seq<string>): seq<nat> {
    Indices(RowMask(lines))
  }

  /** No line has a galaxy in column `x`. */
  predicate ColumnClear(image: seq<string>, x: nat) {
    forall y :: 0 <= y < |image| && x < |image[y]| ==> image[y][x] != '#'
  }

  /**
   * Some line has a galaxy beyond the width of the first line, where
   * `get_blank_col_indices` indexes out of its vector.
   */
  predicate Overhang(image: seq<string>)
    requires |image| > 0
  {
    exists y, x :: 0 <= y < |image| && |image[0]| <= x < |image[y]| && image[y][x] == '#'
  }

  /** Which columns of the first line's width have no galaxy. */
  function ColumnMask(image: seq<string>): (mask: seq<bool>)
    requires |image| > 0
    ensures |mask| == |image[0]|
  {
    seq(|image[0]|, x requires 0 <= x < |image[0]| => ColumnClear(image, x))
  }

  /**
   * What `get_blank_col_indices` returns: the empty columns in ascending
   * order; it panics on an empty image and on an overhanging galaxy.
   */
  function BlankCols(image: seq<string>): (r: Result<seq<nat>>)
    ensures r.Ok? <==> |image| > 0 && !Overhang(image)
  {
    if |image| == 0 || Overhang(image) then Panic("index out of bounds")
    else Ok(Indices(ColumnMask(image)))
  }

  /** No line among the first `n` has a galaxy in column `x`. */
  predicate ClearAbove(image: seq<string>, n: nat, x: nat)
    requires n <= |image|
  {
    forall y :: 0 <= y < n && x < |image[y]| ==> image[y][x] != '#'
  }

  /** No line among the first `n` has a galaxy at or beyond column `w`. */
  predicate NoOverhangAbove(image: seq<string>, n: nat, w: nat)
    requires n <= |image|
  {
    forall y, x :: 0 <= y < n && w <= x < |image[y]| ==> image[y][x] != '#'
  }

  /** The marking loops of `get_blank_col_indices` over line `y`. */
  method MarkLine(image: seq<string>, y: nat, res: array<bool>) returns (ok: bool)
    requires y < |image|
    requires forall x :: 0 <= x < res.Length ==> res[x] == ClearAbove(image, y, x)
    modifies res
    ensures ok <==> forall x :: res.Length <= x < |image[y]| ==> image[y][x] != '#'
    ensures ok ==> forall x :: 0 <= x < res.Length ==> res[x] == ClearAbove(image, y + 1, x)
  {
    var line := image[y];
    for x := 0 to |line|
      invariant forall k :: res.Length <= k < x ==> line[k] != '#'
      invariant forall k :: 0 <= k < res.Length ==> res[k] == (ClearAbove(image, y, k) && (k < x ==> line[k] != '#'))
    {
      if line[x] == '#' {
        if x >= res.Length {
          return false;
        }
        res[x] := false;
      }
    }
    return true;
  }

  /** `get_blank_col_indices` */
  method GetBlankCols(image: seq<string>) returns (r: Result<seq<nat>>)
    ensures r == BlankCols(image)
  {
    if |image| == 0 {
      return Panic("index out of bounds");
    }
    var res := new bool[|image[0]|](_ => true);
    for y := 0 to |image|
      invariant forall x :: 0 <= x < res.Length ==> res[x] == ClearAbove(image, y, x)
      invariant NoOverhangAbove(image, y, res.Length)
    {
      var ok := MarkLine(image, y, res);
      if !ok {
        return Panic("index out of bounds");
      }
    }
    var cols := [];
    for x := 0 to res.Length
      invariant cols == Indices(ColumnMask(image)[..x])
    {
      if res[x] {
        cols := cols + [x];
      }
      assert ColumnMask(image)[..x + 1][..x] == ColumnMask(image)[..x];
    }
    assert ColumnMask(image)[..res.Length] == ColumnMask(image);
    return Ok(cols);
  }

  // ---------------------------------------------------------------------
  // Expansion

  /** A galaxy moved right and down by `extra` for every empty column and row listed before it. */
  function Expand(c: Coord, rows: seq<nat>, cols: seq<nat>, extra: nat): Coord {
    Coord(c.x + CountBelow(cols, c.x) * extra, c.y + CountBelow(rows, c.y) * extra)
  }

  /**
   * A galaxy moves down by `extra` times the number of empty rows among
   * the rows above it.
   */
  lemma ExpandRows(lines: seq<string>, c: Coord, cols: seq<nat>, extra: nat)
    requires c.y <= |lines|
    ensures Expand(c, BlankRows(lines), cols, extra).y == c.y + |BlankRows(lines[..c.y])| * extra
  {
    CountBelowIndices(RowMask(lines), c.y);
    assert RowMask(lines)[..c.y] == RowMask(lines[..c.y]);
  }

  /**
   * A galaxy moves right by `extra` times the number of empty columns among
   * the columns left of it.
   */
  lemma ExpandCols(image: seq<string>, c: Coord, rows: seq<nat>, extra: nat)
    requires |image| > 0 && !Overhang(image) && c.x <= |image[0]|
    ensures Expand(c, rows, BlankCols(image).value, extra).x
            == c.x + |Indices(ColumnMask(image)[..c.x])| * extra
  {
    CountBelowIndices(ColumnMask(image), c.x);
  }

  /** Expansion keeps galaxies in the same order, strictly, along each axis. */
  lemma ExpandOrder(a: Coord, b: Coord, rows: seq<nat>, cols: seq<nat>, extra: nat)
    ensures a.x < b.x <==> Expand(a, rows, cols, extra).x < Expand(b, rows, cols, extra).x
    ensures a.y < b.y <==> Expand(a, rows, cols, extra).y < Expand(b, rows, cols, extra).y
  {
    if a.x <= b.x {
      CountBelowMonotone(cols, a.x, b.x);
      MulLeq(CountBelow(cols, a.x), CountBelow(cols, b.x), extra);
    } else {
      CountBelowMonotone(cols, b.x, a.x);
      MulLeq(CountBelow(cols, b.x), CountBelow(cols, a.x), extra);
    }
    if a.y <= b.y {
      CountBelowMonotone(rows, a.y, b.y);
      MulLeq(CountBelow(rows, a.y), CountBelow(rows, b.y), extra);
    } else {
      CountBelowMonotone(rows, b.y, a.y);
      MulLeq(CountBelow(rows, b.y), CountBelow(rows, a.y), extra);
    }
  }

  /** Every galaxy expanded. */
  function ExpandAll(stars: seq<Coord>, rows: seq<nat>, cols: seq<nat>, extra: nat): (r: seq<Coord>)
    ensures |r| == |stars| && forall i :: 0 <= i < |stars| ==> r[i] == Expand(stars[i], rows, cols, extra)
  {
    seq(|stars|, i requires 0 <= i < |stars| => Expand(stars[i], rows, cols, extra))
  }

  /** The `iter_mut` loop that moves every galaxy. */
  method MoveStars(stars: seq<Coord>, rows: seq<nat>, cols: seq<nat>, extra: nat) returns (moved: seq<Coord>)
    ensures moved == ExpandAll(stars, rows, cols, extra)
  {
    moved := stars;
    for i := 0 to |moved|
      invariant |moved| == |stars|
      invariant forall k :: 0 <= k < i ==> moved[k] == Expand(stars[k], rows, cols, extra)
      invariant forall k :: i <= k < |stars| ==> moved[k] == stars[k]
    {
      var star := moved[i];
      moved := moved[i := Coord(star.x + CountBelow(cols, star.x) * extra, star.y + CountBelow(rows, star.y) * extra)];
    }
  }

  // ---------------------------------------------------------------------
  // Pairs

  /** The distances from `c` to each of `t`, added up. */
  function DistSum(c: Coord, t: seq<Coord>): nat {
    if |t| == 0 then 0 else Distance(c, t[0]) + DistSum(c, t[1..])
  }

  /** The distances of every pair `stars[i]`, `stars[j]` with `i < j`, added up. */
  function PairSum(stars: seq<Coord>): nat {
    if |stars| == 0 then 0 else DistSum(stars[0], stars[1..]) + PairSum(stars[1..])
  }

  /** The distances from each of `xs` to each of `t`, added up. */
  function Cross(xs: seq<Coord>, t: seq<Coord>): nat {
    if |xs| == 0 then 0 else DistSum(xs[0], t) + Cross(xs[1..], t)
  }

  lemma {:induction false} CrossCons(xs: seq<Coord>, c: Coord, t: seq<Coord>)
    ensures Cross(xs, [c] + t) == DistSum(c, xs) + Cross(xs, t)
  {
    if |xs| > 0 {
      assert ([c] + t)[1..] == t;
      DistanceMetric(xs[0], c);
      CrossCons(xs[1..], c, t);
    }
  }

  /**
   * Every unordered pair is counted once: the sum over all ordered pairs,
   * a galaxy with itself included, is twice `PairSum`.
   */
  lemma {:induction false} PairSumHalf(stars: seq<Coord>)
    ensures Cross(stars, stars) == 2 * PairSum(stars)
  {
    if |stars| > 0 {
      var c, rest := stars[0], stars[1..];
      assert stars == [c] + rest;
      DistanceMetric(c, c);
      CrossCons(rest, c, rest);
      PairSumHalf(rest);
    }
  }

  /** The nested pair loop of `part1`. */
  method SumDistances(stars: seq<Coord>) returns (res: nat)
    ensures res == PairSum(stars)
  {
    res := 0;
    for index := 0 to |stars|
      invariant res + PairSum(stars[index..]) == PairSum(stars)
    {
      var star := stars[index];
      assert stars[index..][1..] == stars[index + 1..];
      for j := index + 1 to |stars|
        invariant res + DistSum(star, stars[j..]) + PairSum(stars[index + 1..]) == PairSum(stars)
      {
        assert stars[j..][1..] == stars[j + 1..];
        res := res + Distance(star, stars[j]);
      }
    }
  }

  // ---------------------------------------------------------------------
  // part1 and part2

  /**
   * The answer for an image in which each empty row and column grows by
   * `extra`: the pair distances of the moved galaxies, or a panic from
   * `get_blank_col_indices`.
   */
  function Galaxies(contents: string, extra: nat): Result<nat> {
    var lines := Lines(contents);
    match BlankCols(lines)
    case Panic(why) => Panic(why)
    case Ok(cols) => Ok(PairSum(ExpandAll(Stars(lines), BlankRows(lines), cols, extra)))
  }

  /** The body shared by `part1` and `part2`. */
  method Solve(contents: string, extra: nat) returns (r: Result<nat>)
    ensures r == Galaxies(contents, extra)
  {
    var lines := Lines(contents);
    var stars := FindStars(lines);
    var blankLines := BlankRows(lines);
    var blankCols := GetBlankCols(lines);
    if blankCols.Panic? {
      return Panic(blankCols.reason);
    }
    var moved := MoveStars(stars, blankLines, blankCols.value, extra);
    var res := SumDistances(moved);
    return Ok(res);
  }

  /** `part1`: every empty row and column counts twice. */
  method Part1(contents: string) returns (r: Result<nat>)
    ensures r == Galaxies(contents, 1)
  {
    r := Solve(contents, 1);
  }

  /** `part2`: every empty row and column counts a million times. */
  method Part2(contents: string) returns (r: Result<nat>)
    ensures r == Galaxies(contents, 1000000 - 1)
  {
    r := Solve(contents, 1000000 - 1);
  }
}
