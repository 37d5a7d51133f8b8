/**
 * Day 14: the reflector dish.  Part 1 tilts the platform north: every
 * round rock 'O' rolls up its column until it meets a cube rock '#', another
 * round rock or the top edge; the answer is the total load, each round rock
 * counting the number of rows from it to the south edge, itself included.
 */
module Day14 {
  import opened Text
  import opened Grid

  // ---------------------------------------------------------------------
  // Columns and their settled form

  /** A column made only of empty space, round rocks and cube rocks. */
  predicate Rocky(c: seq<char>) {
    forall j :: 0 <= j < |c| ==> c[j] == '.' || c[j] == 'O' || c[j] == '#'
  }

  /** The number of round rocks in `c`. */
  function Rounds(c: seq<char>): (n: nat)
    ensures n <= |c|
  {
    if |c| == 0 then 0 else Rounds(c[..|c| - 1]) + (if c[|c| - 1] == 'O' then 1 else 0)
  }

  lemma {:induction false} RoundsAppend(a: seq<char>, b: seq<char>)
    ensures Rounds(a + b) == Rounds(a) + Rounds(b)
    decreases |b|
  {
    if b == [] {
      assert a + b == a;
    } else {
      assert (a + b)[..|a + b| - 1] == a + b[..|b| - 1];
      RoundsAppend(a, b[..|b| - 1]);
    }
  }

  /** Where the stretch holding row `y` starts: just below the last cube rock above it, or 0. */
  function SegStart(c: seq<char>, y: nat): (s: nat)
    requires y <= |c|
    ensures s <= y && (s > 0 ==> c[s - 1] == '#')
    ensures forall j :: s <= j < y ==> c[j] != '#'
  {
    if y == 0 then 0 else if c[y - 1] == '#' then y else SegStart(c, y - 1)
  }

  /** Where the stretch holding row `y` ends: at the first cube rock from `y` down, or the bottom. */
  function SegEnd(c: seq<char>, y: nat): (e: nat)
    requires y <= |c|
    ensures y <= e <= |c| && (e < |c| ==> c[e] == '#')
    ensures forall j :: y <= j < e ==> c[j] != '#'
    decreases |c| - y
  {
    if y == |c| || c[y] == '#' then y else SegEnd(c, y + 1)
  }

  /** `[s, e)` is a stretch of `c`: bounded by cube rocks or the edges, with none inside. */
  predicate Stretch(c: seq<char>, s: nat, e: nat) {
    s <= e <= |c|
    && (s == 0 || c[s - 1] == '#')
    && (e == |c| || c[e] == '#')
    && forall j :: s <= j < e ==> c[j] != '#'
  }

  /** Every row of a stretch finds the same stretch around it. */
  lemma StretchAt(c: seq<char>, s: nat, e: nat, j: nat)
    requires Stretch(c, s, e) && s <= j < e
    ensures SegStart(c, j) == s && SegEnd(c, j) == e
  {
    var s', e' := SegStart(c, j), SegEnd(c, j);
    assert s' <= s by {
      if s > 0 {
        assert c[s - 1] == '#';
      }
    }
    assert e <= e' by {
      if e < |c| {
        assert c[e] == '#';
      }
    }
  }

  /** `n` round rocks on top of `m - n` empty cells. */
  function Block(n: nat, m: nat): (r: seq<char>)
    requires n <= m
    ensures |r| == m
  {
    seq(m, j => if j < n then 'O' else '.')
  }

  lemma {:induction false} BlockRounds(n: nat, m: nat)
    requires n <= m
    ensures Rounds(Block(n, m)) == n
  {
    if m > 0 {
      var b := Block(n, m);
      if n == m {
        assert b[..m - 1] == Block(m - 1, m - 1);
        BlockRounds(m - 1, m - 1);
      } else {
        assert b[..m - 1] == Block(n, m - 1);
        BlockRounds(n, m - 1);
      }
    }
  }

  /**
   * A cell of the column tilted north: a cube rock stays; any other cell is
   * a round rock exactly when it is among the first `n` cells of its
   * stretch, `n` being the number of round rocks the stretch held.
   */
  function TiltedCell(c: seq<char>, j: nat): char
    requires j < |c|
  {
    if c[j] == '#' then '#'
    else
      var s, e := SegStart(c, j), SegEnd(c, j);
      if j - s < Rounds(c[s..e]) then 'O' else '.'
  }

  /** The column tilted north, cell by cell. */
  function Tilt(c: seq<char>): (t: seq<char>)
    ensures |t| == |c|
    ensures forall j {:trigger t[j]} :: 0 <= j < |c| ==> (t[j] == '#' <==> c[j] == '#')
    ensures Rocky(t)
  {
    seq(|c|, j requires 0 <= j < |c| => TiltedCell(c, j))
  }

  /** After tilting, each stretch holds its round rocks at the top and empty space below them. */
  lemma TiltStretch(c: seq<char>, s: nat, e: nat)
    requires Stretch(c, s, e)
    ensures Tilt(c)[s..e] == Block(Rounds(c[s..e]), e - s)
  {
    var t := Tilt(c);
    forall j | s <= j < e
      ensures t[j] == if j - s < Rounds(c[s..e]) then 'O' else '.'
    {
      StretchAt(c, s, e, j);
    }
  }

  /** Tilting keeps the number of round rocks in every stretch. */
  lemma TiltStretchRounds(c: seq<char>, s: nat, e: nat)
    requires Stretch(c, s, e)
    ensures Rounds(Tilt(c)[s..e]) == Rounds(c[s..e])
  {
    TiltStretch(c, s, e);
    BlockRounds(Rounds(c[s..e]), e - s);
  }

  /**
   * After tilting no round rock has empty space right above it: in every
   * stretch the round rocks fill a block that starts at the cube rock
   * above it, or at the top edge.
   */
  lemma TiltPacked(c: seq<char>, j: nat)
    requires 0 < j < |c| && Tilt(c)[j] == 'O'
    ensures Tilt(c)[j - 1] != '.'
  {
    var s, e := SegStart(c, j), SegEnd(c, j);
    if s < j {
      StretchAt(c, s, e, j - 1);
    }
  }

  /** A cell of a tilted column stays as it is when the column is tilted again. */
  lemma TiltTwiceAt(c: seq<char>, j: nat)
    requires j < |c| && c[j] != '#'
    ensures Tilt(Tilt(c))[j] == Tilt(c)[j]
  {
    var t := Tilt(c);
    var s, e := SegStart(c, j), SegEnd(c, j);
    assert Stretch(c, s, e);
    StretchKept(c, t, s, e);
    var n := Rounds(c[s..e]);
    TiltStretchRounds(c, s, e);
    TiltStretch(c, s, e);
    TiltStretch(t, s, e);
    assert Tilt(t)[s..e] == t[s..e];
    assert Tilt(t)[j] == Tilt(t)[s..e][j - s];
    assert t[j] == t[s..e][j - s];
  }

  /** A column with its cube rocks where `c` has them has the same stretches. */
  lemma StretchKept(c: seq<char>, t: seq<char>, s: nat, e: nat)
    requires |t| == |c| && forall j {:trigger t[j]} :: 0 <= j < |c| ==> (t[j] == '#' <==> c[j] == '#')
    requires Stretch(c, s, e)
    ensures Stretch(t, s, e)
  {
    if s > 0 {
      assert c[s - 1] == '#';
    }
    if e < |c| {
      assert c[e] == '#';
    }
    forall j | s <= j < e ensures t[j] != '#' {
      assert c[j] != '#';
    }
  }

  /** A tilted column stays as it is when tilted again. */
  lemma TiltIdempotent(c: seq<char>)
    ensures Tilt(Tilt(c)) == Tilt(c)
  {
    var t := Tilt(c);
    forall j | 0 <= j < |c|
      ensures Tilt(t)[j] == t[j]
    {
      if c[j] != '#' {
        TiltTwiceAt(c, j);
      }
    }
  }

  // ---------------------------------------------------------------------
  // The in-place tilt of `part1`

  /**
   * The scan has tilted the first `y` cells of `c0`: the stretches closed
   * by a cube rock agree with the tilted column `T`, the open one holds its
   * round rocks from its top and then empty space, and the landing cursor
   * is at or below the first empty cell of the open stretch with nothing
   * empty between the two.
   */
  ghost predicate Packed(c0: seq<char>, T: seq<char>, t: seq<char>, y: nat, landing: nat)
    requires |t| == |c0| == |T| && y <= |c0|
  {
    var s := SegStart(c0, y);
    var p := s + Rounds(c0[s..y]);
    (forall j :: 0 <= j < s ==> t[j] == T[j])
    && p <= landing && (p < y ==> landing == p)
    && (forall j :: s <= j < p ==> t[j] == 'O')
    && (forall j :: p <= j < y ==> t[j] == '.')
    && (forall j :: p <= j < landing && j < |t| ==> t[j] != '.')
  }

  /** A cube rock closes the open stretch and puts the cursor just below it. */
  lemma PackedRock(c0: seq<char>, T: seq<char>, t: seq<char>, y: nat, landing: nat)
    requires T == Tilt(c0) && |t| == |c0| && y < |c0| && c0[y] == '#' && t[y] == '#'
    requires Packed(c0, T, t, y, landing)
    ensures Packed(c0, T, t, y + 1, y + 1)
  {
    var s := SegStart(c0, y);
    assert Stretch(c0, s, y);
    TiltStretch(c0, s, y);
    assert SegStart(c0, y + 1) == y + 1;
    forall j | s <= j < y
      ensures t[j] == T[j]
    {
      assert T[j] == T[s..y][j - s];
    }
  }

  /** Empty space extends the open stretch. */
  lemma PackedDot(c0: seq<char>, T: seq<char>, t: seq<char>, y: nat, landing: nat)
    requires |T| == |t| == |c0| && y < |c0| && c0[y] == '.' && t[y] == '.'
    requires Packed(c0, T, t, y, landing)
    ensures Packed(c0, T, t, y + 1, landing)
  {
    var s := SegStart(c0, y);
    assert SegStart(c0, y + 1) == s;
    assert c0[s..y + 1][..y - s] == c0[s..y];
  }

  /**
   * A round rock: moved up to the cursor when the cursor is above it, after
   * which the cursor walks down past everything that is not empty.
   */
  lemma PackedStone(c0: seq<char>, T: seq<char>, t: seq<char>, y: nat, landing: nat, t': seq<char>, landing': nat)
    requires |T| == |t| == |c0| && y < |c0| && c0[y] == 'O' && t[y] == 'O'
    requires Packed(c0, T, t, y, landing)
    requires t' == if landing < y then t[y := '.'][landing := 'O'] else t
    requires landing <= landing' <= |t'|
    requires forall j :: landing <= j < landing' ==> t'[j] != '.'
    requires landing' == |t'| || t'[landing'] == '.'
    ensures Packed(c0, T, t', y + 1, landing')
  {
    var s := SegStart(c0, y);
    var p := s + Rounds(c0[s..y]);
    assert SegStart(c0, y + 1) == s;
    assert c0[s..y + 1][..y - s] == c0[s..y];
    assert p <= y;
    if landing < y {
      assert landing == p;
      assert t'[p] == 'O' && t'[p + 1] == '.';
      assert landing' == p + 1;
    } else {
      assert p == y;
    }
  }

  /** At the bottom of the column the open stretch settles as well. */
  lemma PackedEnd(c0: seq<char>, T: seq<char>, t: seq<char>, landing: nat)
    requires T == Tilt(c0) && |t| == |c0| && Packed(c0, T, t, |c0|, landing)
    ensures t == T
  {
    var s := SegStart(c0, |c0|);
    assert Stretch(c0, s, |c0|);
    TiltStretch(c0, s, |c0|);
    forall j | s <= j < |c0|
      ensures t[j] == T[j]
    {
      assert T[j] == T[s..|c0|][j - s];
    }
  }

  lemma CountMove(t: seq<char>, y: nat, landing: nat)
    requires landing < y < |t| && t[y] == 'O' && t[landing] != 'O'
    ensures Rounds(t[y := '.'][landing := 'O']) == Rounds(t)
  {
    CountSet(t, y, '.');
    CountSet(t[y := '.'], landing, 'O');
  }

  lemma {:induction false} CountSet(t: seq<char>, i: nat, c: char)
    requires i < |t|
    ensures Rounds(t[i := c]) + (if t[i] == 'O' then 1 else 0)
      == Rounds(t) + (if c == 'O' then 1 else 0)
  {
    var n := |t| - 1;
    if i < n {
      assert t[i := c][..n] == t[..n][i := c];
      CountSet(t[..n], i, c);
    } else {
      assert t[i := c][..n] == t[..n];
    }
  }

  /**
   * What the in-place tilt leaves of a column: cube rocks where they were,
   * as many round rocks as before, and for a column of the three usual
   * kinds of cell exactly the tilted column.
   */
  ghost predicate Resettled(c0: seq<char>, c: seq<char>) {
    |c| == |c0|
    && (forall j :: 0 <= j < |c| ==> (c[j] == '#' <==> c0[j] == '#'))
    && Rounds(c) == Rounds(c0)
    && (Rocky(c0) ==> c == Tilt(c0))
  }

  /**
   * The state of the column scan before row `y`: rows from `y` down are
   * untouched, cube rocks stay where they were, no round rock was lost or
   * made, the cursor above row `y` points at neither kind of rock, and a
   * column of the three usual kinds of cell is packed up to row `y`.
   */
  ghost predicate Scanned(c0: seq<char>, t: seq<char>, y: nat, landing: nat) {
    |t| == |c0| && y <= |t| && landing <= |t|
    && (forall j :: y <= j < |t| ==> t[j] == c0[j])
    && (forall j :: 0 <= j < |t| ==> (t[j] == '#' <==> c0[j] == '#'))
    && Rounds(t) == Rounds(c0)
    && (y <= landing || (t[landing] != '#' && t[landing] != 'O'))
    && (Rocky(c0) ==> Packed(c0, Tilt(c0), t, y, landing))
  }

  /** A cube rock in row `y` puts the landing cursor just below it. */
  lemma ScanRock(c0: seq<char>, t: seq<char>, y: nat, landing: nat)
    requires Scanned(c0, t, y, landing) && y < |t| && t[y] == '#'
    ensures Scanned(c0, t, y + 1, y + 1)
  {
    if Rocky(c0) {
      PackedRock(c0, Tilt(c0), t, y, landing);
    }
  }

  /** Any cell other than a rock in row `y` leaves the column and the cursor as they are. */
  lemma ScanPast(c0: seq<char>, t: seq<char>, y: nat, landing: nat)
    requires Scanned(c0, t, y, landing) && y < |t| && t[y] != '#' && t[y] != 'O'
    ensures Scanned(c0, t, y + 1, landing)
  {
    if Rocky(c0) {
      assert c0[y] == t[y];
      PackedDot(c0, Tilt(c0), t, y, landing);
    }
  }

  /** The column loop of `part1`: rolls the round rocks of `col` north in place. */
  method TiltColumn(col: array<char>)
    modifies col
    ensures Resettled(old(col[..]), col[..])
  {
    ghost var c0 := col[..];
    var landing: nat := 0;
    for y := 0 to col.Length
      invariant Scanned(c0, col[..], y, landing)
    {
      landing := ScanCell(col, c0, y, landing);
    }
    ScanDone(c0, col[..], landing);
  }

  /** One round of the loop over the rows of a column. */
  method ScanCell(col: array<char>, ghost c0: seq<char>, y: nat, landing: nat) returns (landing': nat)
    requires y < col.Length && Scanned(c0, col[..], y, landing)
    modifies col
    ensures Scanned(c0, col[..], y + 1, landing')
  {
    var currentRock := col[y];
    if currentRock == '#' {
      ScanRock(c0, col[..], y, landing);
      landing' := y + 1;
    } else if currentRock == 'O' {
      landing' := Roll(col, c0, y, landing);
    } else {
      ScanPast(c0, col[..], y, landing);
      landing' := landing;
    }
  }

  /** A scan of the whole column has resettled it. */
  lemma ScanDone(c0: seq<char>, t: seq<char>, landing: nat)
    requires Scanned(c0, t, |t|, landing)
    ensures Resettled(c0, t)
  {
    if Rocky(c0) {
      PackedEnd(c0, Tilt(c0), t, landing);
    }
  }

  /**
   * A round rock in row `y`: it moves up to the landing cursor when the
   * cursor is above it, and the cursor then walks down past every cell
   * that is not empty.
   */
  method Roll(col: array<char>, ghost c0: seq<char>, y: nat, landing: nat) returns (landing': nat)
    requires y < col.Length && col[y] == 'O'
    requires Scanned(c0, col[..], y, landing)
    modifies col
    ensures Scanned(c0, col[..], y + 1, landing')
  {
    ghost var t := col[..];
    if landing < y {
      col[y] := '.';
      col[landing] := 'O';
      CountMove(t, y, landing);
    }
    landing' := landing;
    while landing' < col.Length && col[landing'] != '.'
      invariant landing <= landing' <= col.Length
      invariant forall j :: landing <= j < landing' ==> col[j] != '.'
      decreases col.Length - landing'
    {
      landing' := landing' + 1;
    }
    if Rocky(c0) {
      PackedStone(c0, Tilt(c0), t, y, landing, col[..], landing');
    }
  }

  // ---------------------------------------------------------------------
  // The load

  /** The load of the first `y` cells of a column: `|c| - i` for each round rock at row `i`. */
  function ColumnLoad(c: seq<char>, y: nat): (load: nat)
    requires y <= |c|
    ensures load <= y * |c|
  {
    if y == 0 then 0
    else ColumnLoad(c, y - 1) + (if c[y - 1] == 'O' then |c| - (y - 1) else 0)
  }

  /** The loads of whole columns added up. */
  function TotalLoad(cols: seq<seq<char>>): nat {
    if |cols| == 0 then 0
    else TotalLoad(cols[..|cols| - 1]) + ColumnLoad(cols[|cols| - 1], |cols[|cols| - 1]|)
  }

  /**
   * The write-back loop of `part1`: copies the tilted column into column `x`
   * of the map and weighs its round rocks.
   */
  method StoreColumn(grid: array2<char>, x: nat, col: array<char>) returns (load: nat)
    requires x < grid.Length1 && col.Length == grid.Length0
    modifies grid
    ensures load == ColumnLoad(col[..], col.Length)
    ensures forall y :: 0 <= y < grid.Length0 ==> grid[y, x] == col[y]
    ensures forall y, x' :: 0 <= y < grid.Length0 && 0 <= x' < grid.Length1 && x' != x ==>
      grid[y, x'] == old(grid[y, x'])
  {
    load := 0;
    for y := 0 to col.Length
      invariant load == ColumnLoad(col[..], y)
      invariant forall y' :: 0 <= y' < y ==> grid[y', x] == col[y']
      invariant forall y', x' :: 0 <= y' < grid.Length0 && 0 <= x' < grid.Length1 && x' != x ==>
        grid[y', x'] == old(grid[y', x'])
    {
      grid[y, x] := col[y];
      if col[y] == 'O' {
        load := load + (col.Length - y);
      }
    }
  }

  /**
   * The body of the column loop of `part1`: copies column `x` out of the map,
   * tilts it, writes it back and weighs it.
   */
  method SettleColumn(grid: array2<char>, x: nat, ghost column: seq<char>) returns (load: nat, ghost tilted: seq<char>)
    requires x < grid.Length1 && |column| == grid.Length0
    requires forall y :: 0 <= y < grid.Length0 ==> grid[y, x] == column[y]
    modifies grid
    ensures Resettled(column, tilted) && load == ColumnLoad(tilted, |tilted|)
    ensures forall y :: 0 <= y < grid.Length0 ==> grid[y, x] == tilted[y]
    ensures forall y, x' :: 0 <= y < grid.Length0 && 0 <= x' < grid.Length1 && x' != x ==>
      grid[y, x'] == old(grid[y, x'])
  {
    var rockColumn := new char[grid.Length0](y requires 0 <= y < grid.Length0 reads grid => grid[y, x]);
    assert rockColumn[..] == column;
    TiltColumn(rockColumn);
    tilted := rockColumn[..];
    load := StoreColumn(grid, x, rockColumn);
  }

  /**
   * `cols` are the first `|cols|` columns of the map `g`, each resettled,
   * and `load` is their total load.
   */
  ghost predicate Weighed(g: seq<seq<char>>, cols: seq<seq<char>>, load: int) {
    && (forall y :: 0 <= y < |g| ==> |cols| <= |g[y]|)
    && (forall x :: 0 <= x < |cols| ==> Resettled(Column(g, x), cols[x]))
    && load == TotalLoad(cols)
  }

  /** A column resettled in `cols` is still resettled in any extension of `cols`. */
  lemma ResettledKept(g: seq<seq<char>>, cols: seq<seq<char>>, cols': seq<seq<char>>, x: nat)
    requires x < |cols| <= |cols'| && cols'[..|cols|] == cols
    requires forall y :: 0 <= y < |g| ==> |cols| <= |g[y]|
    requires forall x :: 0 <= x < |cols| ==> Resettled(Column(g, x), cols[x])
    ensures Resettled(Column(g, x), cols'[x])
  {
    assert cols'[x] == cols[x];
  }

  lemma ResettledAppend(g: seq<seq<char>>, cols: seq<seq<char>>, tilted: seq<char>)
    requires forall y :: 0 <= y < |g| ==> |cols| < |g[y]|
    requires forall x :: 0 <= x < |cols| ==> Resettled(Column(g, x), cols[x])
    requires Resettled(Column(g, |cols|), tilted)
    ensures forall x :: 0 <= x <= |cols| ==> Resettled(Column(g, x), (cols + [tilted])[x])
  {
    var cols' := cols + [tilted];
    assert cols'[..|cols|] == cols;
    forall x | 0 <= x <= |cols|
      ensures Resettled(Column(g, x), cols'[x])
    {
      if x < |cols| {
        ResettledKept(g, cols, cols', x);
      } else {
        assert cols'[x] == tilted;
      }
    }
  }

  lemma WeighedAppend(g: seq<seq<char>>, cols: seq<seq<char>>, load: int, tilted: seq<char>, more: nat)
    requires Weighed(g, cols, load)
    requires forall y :: 0 <= y < |g| ==> |cols| < |g[y]|
    requires Resettled(Column(g, |cols|), tilted) && more == ColumnLoad(tilted, |tilted|)
    ensures Weighed(g, cols + [tilted], load + more)
  {
    ResettledAppend(g, cols, tilted);
    assert (cols + [tilted])[..|cols|] == cols;
  }

  /**
   * `part1`: reads the platform, tilts each column of the `Array2D` in
   * place, writes it back and adds up the load of the round rocks.
   */
  method Part1(contents: string) returns (r: Result<int>)
    ensures r.Panic? <==> Read2dMap(contents).Panic?
    ensures r.Ok? ==> exists cols :: |cols| == Width(contents) && Weighed(Read2dMap(contents).value, cols, r.value)
  {
    var read := Read2dMap(contents);
    if read.Panic? {
      return Panic(read.reason);
    }
    var g := read.value;
    var h, w := Height(contents), Width(contents);
    var grid := new char[h, w]((y, x) requires 0 <= y < h && 0 <= x < w => g[y][x]);
    var res, cols := TiltAndWeigh(grid, g);
    return Ok(res);
  }

  /** The column loop of `part1` over the `Array2D` holding the map `g`. */
  method TiltAndWeigh(grid: array2<char>, ghost g: seq<seq<char>>) returns (res: int, ghost cols: seq<seq<char>>)
    requires IsRect(g, grid.Length0, grid.Length1)
    requires forall y, x :: 0 <= y < grid.Length0 && 0 <= x < grid.Length1 ==> grid[y, x] == g[y][x]
    modifies grid
    ensures |cols| == grid.Length1 && Weighed(g, cols, res)
  {
    res := 0;
    cols := [];
    for x := 0 to grid.Length1
      invariant forall y, x' :: 0 <= y < grid.Length0 && x <= x' < grid.Length1 ==> grid[y, x'] == g[y][x']
      invariant |cols| == x && Weighed(g, cols, res)
    {
      ghost var column := Column(g, x);
      var load, tilted := SettleColumn(grid, x, column);
      WeighedAppend(g, cols, res, tilted, load);
      res := res + load;
      cols := cols + [tilted];
    }
  }
}
