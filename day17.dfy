/**
 * Day 17 (`src/bin/day17.rs`): the least heat lost by a crucible crossing a
 * city grid. A `Solver` first runs Dijkstra's algorithm from the top-left
 * block, refusing a fourth straight step along a chain of single sources;
 * the distance it finds for the bottom-right block is then the bound for a
 * breadth-first search over moves that never reverse and never go more than
 * three blocks straight.
 */
module Day17 {
  import opened Text
  import opened Grid

  // Coordinates and directions

  /** A block of the grid; both coordinates are `usize`. */
  datatype Coord = Coord(y: nat, x: nat)

  datatype Direction = North | West | South | East

  /** `Coord::cardinal_neighbors`: the blocks to the North, West, South and East, in that order. */
  function CardinalNeighbors(c: Coord): (r: seq<Coord>)
    ensures |r| == 4 && c !in r
  {
    [Coord(WrappingDec(c.y), c.x), Coord(c.y, WrappingDec(c.x)), Coord(c.y + 1, c.x), Coord(c.y, c.x + 1)]
  }

  const Directions: seq<Direction> := [North, West, South, East]

  /**
   * `Coord::direction_to`: North or West when `b` lies above or left of `a`,
   * then South or East; identical blocks panic.
   */
  function DirectionTo(a: Coord, b: Coord): (r: Result<Direction>)
    ensures r.Panic? <==> a == b
    ensures r == Ok(North) <==> b.y < a.y
    ensures r == Ok(South) ==> b.y > a.y
    ensures r == Ok(West) ==> b.y >= a.y && b.x < a.x
    ensures r == Ok(East) ==> b.y >= a.y && b.x > a.x
  {
    if b.y < a.y then Ok(North)
    else if b.x < a.x then Ok(West)
    else if b.y > a.y then Ok(South)
    else if b.x > a.x then Ok(East)
    else Panic("direction_to called with identical coords!")
  }

  /**
   * Away from the top and left edges, the `i`-th cardinal neighbour lies in
   * the `i`-th direction; the four neighbours are distinct from the block.
   */
  lemma NeighborDirections(c: Coord)
    requires c.y > 0 && c.x > 0
    ensures forall i :: 0 <= i < 4 ==> DirectionTo(c, CardinalNeighbors(c)[i]) == Ok(Directions[i])
  {
    var n := CardinalNeighbors(c);
    assert DirectionTo(c, n[0]) == Ok(North);
    assert DirectionTo(c, n[1]) == Ok(West);
    assert DirectionTo(c, n[2]) == Ok(South);
    assert DirectionTo(c, n[3]) == Ok(East);
  }

  /** `Direction::opposite`. */
  function Opposite(d: Direction): (r: Direction)
    ensures r != d
  {
    match d
    case North => South
    case West => East
    case South => North
    case East => West
  }

  lemma OppositeInvolution(d: Direction)
    ensures Opposite(Opposite(d)) == d
  {
  }

  // The Dijkstra table

  /** `DijkstraEntry`: the least loss found, whether the block was expanded, and the blocks it was reached from. */
  datatype Entry = Entry(minHeatLoss: nat, seen: bool, sources: seq<Coord>)

  /** `DijkstraEntry::new`. */
  const Unreached := Entry(USIZE_MAX, false, [])

  /** `DistPair`, ordered by loss, then row, then column. */
  datatype DistPair = DistPair(loss: nat, coord: Coord)

  predicate Below(p: DistPair, q: DistPair) {
    p.loss < q.loss || (p.loss == q.loss && (p.coord.y < q.coord.y || (p.coord.y == q.coord.y && p.coord.x < q.coord.x)))
  }

  /**
   * The pair that `pop` hands out from the heap of `Reverse<DistPair>`: one
   * that nothing lies below. Equal pairs are identical, so the choice of
   * index does not matter.
   */
  function Nearest(heap: seq<DistPair>): (i: nat)
    requires |heap| > 0
    ensures i < |heap|
    ensures forall j :: 0 <= j < |heap| ==> !Below(heap[j], heap[i])
  {
    if |heap| == 1 then 0
    else
      var i := Nearest(heap[1..]) + 1;
      assert forall j :: 1 <= j < |heap| ==> heap[j] == heap[1..][j - 1];
      if Below(heap[0], heap[i]) then 0 else i
  }

  function Remove<T>(s: seq<T>, i: nat): (r: seq<T>)
    requires i < |s|
    ensures |r| == |s| - 1
    ensures forall v :: v in s && v != s[i] ==> v in r
    ensures forall v :: v in r ==> v in s
  {
    assert s == s[..i] + [s[i]] + s[i + 1..];
    s[..i] + s[i + 1..]
  }

  /** The grid and the table have the same positive dimensions. */
  predicate Shape(grid: seq<seq<nat>>, d: seq<seq<Entry>>) {
    |grid| > 0 && |grid[0]| > 0 && IsRect(grid, |grid|, |grid[0]|) && IsRect(d, |grid|, |grid[0]|)
  }

  /** `Array2D::get` succeeds. */
  predicate InGrid(grid: seq<seq<nat>>, c: Coord) {
    |grid| > 0 && c.y < |grid| && c.x < |grid[0]|
  }

  function At(d: seq<seq<Entry>>, c: Coord): Entry
    requires c.y < |d| && c.x < |d[c.y]|
  {
    d[c.y][c.x]
  }

  function Put(d: seq<seq<Entry>>, c: Coord, e: Entry): (r: seq<seq<Entry>>)
    requires c.y < |d| && c.x < |d[c.y]|
    ensures |r| == |d| && forall y :: 0 <= y < |d| ==> |r[y]| == |d[y]|
    ensures At(r, c) == e
    ensures forall q: Coord :: q.y < |d| && q.x < |d[q.y]| && q != c ==> At(r, q) == At(d, q)
  {
    d[c.y := d[c.y][c.x := e]]
  }

  function Heat(grid: seq<seq<nat>>, c: Coord): nat
    requires c.y < |grid| && c.x < |grid[c.y]|
  {
    grid[c.y][c.x]
  }

  /**
   * `s` is a justified source of `c`: an expanded block next to it whose
   * loss plus the heat of `c` is the loss of `c`.
   */
  ghost predicate Sourced(grid: seq<seq<nat>>, d: seq<seq<Entry>>, s: Coord, c: Coord)
    requires Shape(grid, d) && InGrid(grid, c)
  {
    InGrid(grid, s) && c in CardinalNeighbors(s) && At(d, s).seen &&
    At(d, s).minHeatLoss + Heat(grid, c) == At(d, c).minHeatLoss
  }

  /**
   * The invariant of one block while the algorithm runs, `last` being the
   * loss last popped: no loss above `usize::MAX`; an expanded block's loss
   * is at most `last`; a reached block not yet expanded waits in the heap
   * with its loss; every source is justified.
   */
  ghost predicate CellOk(grid: seq<seq<nat>>, d: seq<seq<Entry>>, heap: seq<DistPair>, last: nat, c: Coord)
    requires Shape(grid, d) && InGrid(grid, c)
  {
    var e := At(d, c);
    e.minHeatLoss <= USIZE_MAX &&
    (e.seen ==> e.minHeatLoss <= last) &&
    (!e.seen && e.minHeatLoss < USIZE_MAX ==> DistPair(e.minHeatLoss, c) in heap) &&
    forall j :: 0 <= j < |e.sources| ==> Sourced(grid, d, e.sources[j], c)
  }

  /** A pair in the heap: on the grid, no better than its block's entry, not before `last`, below `usize::MAX`. */
  ghost predicate PairOk(grid: seq<seq<nat>>, d: seq<seq<Entry>>, last: nat, p: DistPair)
    requires Shape(grid, d)
  {
    InGrid(grid, p.coord) && At(d, p.coord).minHeatLoss <= p.loss && last <= p.loss < USIZE_MAX
  }

  ghost predicate Inv(grid: seq<seq<nat>>, d: seq<seq<Entry>>, heap: seq<DistPair>, last: nat) {
    Shape(grid, d) &&
    (forall i :: 0 <= i < |heap| ==> PairOk(grid, d, last, heap[i])) &&
    (forall c {:trigger CellOk(grid, d, heap, last, c)} :: InGrid(grid, c) ==> CellOk(grid, d, heap, last, c))
  }

  /**
   * After the run: every block still at `usize::MAX` was never reached, every
   * other block was expanded, and every source is justified.
   */
  ghost predicate Settled(grid: seq<seq<nat>>, d: seq<seq<Entry>>)
    requires Shape(grid, d)
  {
    forall c :: InGrid(grid, c) ==>
      (At(d, c).seen || At(d, c).minHeatLoss == USIZE_MAX) &&
      forall j :: 0 <= j < |At(d, c).sources| ==> Sourced(grid, d, At(d, c).sources[j], c)
  }

  /** Losses never rise and an expanded block stays expanded. */
  ghost predicate Lowered(grid: seq<seq<nat>>, before: seq<seq<Entry>>, after: seq<seq<Entry>>)
    requires Shape(grid, before) && Shape(grid, after)
  {
    forall c :: InGrid(grid, c) ==>
      At(after, c).minHeatLoss <= At(before, c).minHeatLoss && (At(before, c).seen ==> At(after, c).seen)
  }

  // The sum of all losses, which every push lowers

  function RowLoss(row: seq<Entry>): nat {
    if |row| == 0 then 0 else RowLoss(row[..|row| - 1]) + row[|row| - 1].minHeatLoss
  }

  function TotalLoss(d: seq<seq<Entry>>): nat {
    if |d| == 0 then 0 else TotalLoss(d[..|d| - 1]) + RowLoss(d[|d| - 1])
  }

  lemma {:induction false} RowLossSet(row: seq<Entry>, x: nat, e: Entry)
    requires x < |row|
    ensures RowLoss(row[x := e]) + row[x].minHeatLoss == RowLoss(row) + e.minHeatLoss
  {
    if x < |row| - 1 {
      assert row[x := e][..|row| - 1] == row[..|row| - 1][x := e];
      RowLossSet(row[..|row| - 1], x, e);
    } else {
      assert row[x := e][..|row| - 1] == row[..|row| - 1];
    }
  }

  lemma {:induction false} TotalLossSet(d: seq<seq<Entry>>, y: nat, row: seq<Entry>)
    requires y < |d|
    ensures TotalLoss(d[y := row]) + RowLoss(d[y]) == TotalLoss(d) + RowLoss(row)
  {
    if y < |d| - 1 {
      assert d[y := row][..|d| - 1] == d[..|d| - 1][y := row];
      TotalLossSet(d[..|d| - 1], y, row);
    } else {
      assert d[y := row][..|d| - 1] == d[..|d| - 1];
    }
  }

  /** Replacing one entry changes the total by the change of its loss. */
  lemma TotalLossPut(d: seq<seq<Entry>>, c: Coord, e: Entry)
    requires c.y < |d| && c.x < |d[c.y]|
    ensures TotalLoss(Put(d, c, e)) + At(d, c).minHeatLoss == TotalLoss(d) + e.minHeatLoss
  {
    RowLossSet(d[c.y], c.x, e);
    TotalLossSet(d, c.y, d[c.y][c.x := e]);
  }

  // One relaxation

  /**
   * The relaxation of `run_dijkstra`: a strictly better loss replaces the
   * sources with `from` and asks for a push; an equal one adds `from` to the
   * sources; a worse one changes nothing.
   */
  function Relaxed(e: Entry, loss: nat, from: Coord): (r: (Entry, bool))
    ensures r.0.minHeatLoss <= e.minHeatLoss && r.0.seen == e.seen
    ensures r.1 <==> loss < e.minHeatLoss
    ensures r.1 ==> r.0 == Entry(loss, e.seen, [from])
    ensures loss == e.minHeatLoss ==> r.0 == e.(sources := e.sources + [from])
    ensures loss > e.minHeatLoss ==> r.0 == e
  {
    if loss < e.minHeatLoss then (Entry(loss, e.seen, [from]), true)
    else if loss == e.minHeatLoss then (e.(sources := e.sources + [from]), false)
    else (e, false)
  }

  /**
   * `is_illegal_movement`, from block `current` with `k` steps left: each
   * step needs a single source lying in `dir` from `start` (the source of
   * `current`, compared with `start`), and then moves to it.
   */
  function IllegalAfter(d: seq<seq<Entry>>, start: Coord, dir: Direction, current: Coord, k: nat): Result<bool>
    decreases k
  {
    if k == 0 then Ok(true)
    else if !(current.y < |d| && current.x < |d[current.y]|) then Panic("called `Option::unwrap()` on a `None` value")
    else
      var sources := At(d, current).sources;
      if |sources| != 1 then Ok(false)
      else match DirectionTo(sources[0], start)
        case Panic(why) => Panic(why)
        case Ok(d0) => if d0 != dir then Ok(false) else IllegalAfter(d, start, dir, sources[0], k - 1)
  }

  /** `Solver::is_illegal_movement`: moving from `start` to `end` would make a fourth straight step. */
  function IllegalMovement(d: seq<seq<Entry>>, start: Coord, end: Coord): (r: Result<bool>)
    ensures r == Ok(true) ==>
      start.y < |d| && start.x < |d[start.y]| && |At(d, start).sources| == 1 &&
      DirectionTo(start, end) == DirectionTo(At(d, start).sources[0], start)
  {
    match DirectionTo(start, end)
    case Panic(why) => Panic(why)
    case Ok(dir) => IllegalAfter(d, start, dir, start, 3)
  }

  /**
   * One neighbour in the loop of `run_dijkstra`: skipped off the grid or when
   * the move is illegal, otherwise relaxed with the popped loss plus its heat.
   */
  function Visit(grid: seq<seq<nat>>, d: seq<seq<Entry>>, heap: seq<DistPair>, coord: Coord, loss: nat, n: Coord): Result<(seq<seq<Entry>>, seq<DistPair>)>
    requires Shape(grid, d)
  {
    if !InGrid(grid, n) then Ok((d, heap))
    else match IllegalMovement(d, coord, n)
      case Panic(why) => Panic(why)
      case Ok(illegal) =>
        if illegal then Ok((d, heap))
        else
          var newLoss := loss + Heat(grid, n);
          var (e, pushed) := Relaxed(At(d, n), newLoss, coord);
          Ok((Put(d, n, e), Pushed(heap, pushed, newLoss, n)))
  }

  // The invariant kept

  lemma InGridAt(grid: seq<seq<nat>>, d: seq<seq<Entry>>, c: Coord)
    requires Shape(grid, d) && InGrid(grid, c)
    ensures c.y < |d| && c.x < |d[c.y]| && c.x < |grid[c.y]|
  {
  }

  /** Popping a pair whose block was already expanded keeps the invariant, `last` rising to its loss. */
  lemma PopSeen(grid: seq<seq<nat>>, d: seq<seq<Entry>>, heap: seq<DistPair>, last: nat)
    requires Inv(grid, d, heap, last) && |heap| > 0
    requires var p := heap[Nearest(heap)]; InGrid(grid, p.coord) && At(d, p.coord).seen
    ensures var i := Nearest(heap); Inv(grid, d, Remove(heap, i), heap[i].loss)
  {
    var i := Nearest(heap);
    var p := heap[i];
    var rest := Remove(heap, i);
    assert PairOk(grid, d, last, p);
    forall j | 0 <= j < |rest|
      ensures PairOk(grid, d, p.loss, rest[j])
    {
      assert rest[j] in heap;
      var k :| 0 <= k < |heap| && heap[k] == rest[j];
      assert PairOk(grid, d, last, heap[k]);
      assert !Below(heap[k], p);
    }
    forall c | InGrid(grid, c)
      ensures CellOk(grid, d, rest, p.loss, c)
    {
      assert CellOk(grid, d, heap, last, c);
      var e := At(d, c);
      if !e.seen && e.minHeatLoss < USIZE_MAX {
        assert DistPair(e.minHeatLoss, c) != p;
      }
    }
  }

  /**
   * Popping a pair whose block is not yet expanded: the block's loss is the
   * popped loss, and marking it expanded keeps the invariant.
   */
  lemma PopFresh(grid: seq<seq<nat>>, d: seq<seq<Entry>>, heap: seq<DistPair>, last: nat)
    requires Inv(grid, d, heap, last) && |heap| > 0
    requires var p := heap[Nearest(heap)]; InGrid(grid, p.coord) && !At(d, p.coord).seen
    ensures var p := heap[Nearest(heap)];
      p.coord.y < |d| && p.coord.x < |d[p.coord.y]| && At(d, p.coord).minHeatLoss == p.loss &&
      Inv(grid, Put(d, p.coord, At(d, p.coord).(seen := true)), Remove(heap, Nearest(heap)), p.loss)
  {
    var i := Nearest(heap);
    var p := heap[i];
    assert PairOk(grid, d, last, p);
    var e := At(d, p.coord);
    assert CellOk(grid, d, heap, last, p.coord);
    assert DistPair(e.minHeatLoss, p.coord) in heap;
    var k :| 0 <= k < |heap| && heap[k] == DistPair(e.minHeatLoss, p.coord);
    assert !Below(heap[k], p);
    PopPairs(grid, d, heap, last);
    PopCells(grid, d, heap, last);
  }

  /** The pairs left after popping the nearest one are still sound, at its loss. */
  lemma PopPairs(grid: seq<seq<nat>>, d: seq<seq<Entry>>, heap: seq<DistPair>, last: nat)
    requires Inv(grid, d, heap, last) && |heap| > 0
    requires var p := heap[Nearest(heap)]; InGrid(grid, p.coord) && !At(d, p.coord).seen
    ensures var p := heap[Nearest(heap)]; var rest := Remove(heap, Nearest(heap));
      p.coord.y < |d| && p.coord.x < |d[p.coord.y]| &&
      forall j :: 0 <= j < |rest| ==> PairOk(grid, Put(d, p.coord, At(d, p.coord).(seen := true)), p.loss, rest[j])
  {
    var i := Nearest(heap);
    var p := heap[i];
    var rest := Remove(heap, i);
    assert PairOk(grid, d, last, p);
    var d' := Put(d, p.coord, At(d, p.coord).(seen := true));
    forall j | 0 <= j < |rest|
      ensures PairOk(grid, d', p.loss, rest[j])
    {
      assert rest[j] in heap;
      var k :| 0 <= k < |heap| && heap[k] == rest[j];
      assert PairOk(grid, d, last, heap[k]);
      assert !Below(heap[k], p);
    }
  }

  /** The blocks stay sound after popping the nearest pair and marking its block seen. */
  lemma PopCells(grid: seq<seq<nat>>, d: seq<seq<Entry>>, heap: seq<DistPair>, last: nat)
    requires Inv(grid, d, heap, last) && |heap| > 0
    requires var p := heap[Nearest(heap)]; InGrid(grid, p.coord) && !At(d, p.coord).seen
    ensures var p := heap[Nearest(heap)]; var rest := Remove(heap, Nearest(heap));
      p.coord.y < |d| && p.coord.x < |d[p.coord.y]| &&
      forall c {:trigger CellOk(grid, Put(d, p.coord, At(d, p.coord).(seen := true)), rest, p.loss, c)} ::
        InGrid(grid, c) ==> CellOk(grid, Put(d, p.coord, At(d, p.coord).(seen := true)), rest, p.loss, c)
  {
    var i := Nearest(heap);
    var p := heap[i];
    var rest := Remove(heap, i);
    assert PairOk(grid, d, last, p);
    var d' := Put(d, p.coord, At(d, p.coord).(seen := true));
    forall c | InGrid(grid, c)
      ensures CellOk(grid, d', rest, p.loss, c)
    {
      assert CellOk(grid, d, heap, last, c);
      var ec := At(d, c);
      if c != p.coord && !ec.seen && ec.minHeatLoss < USIZE_MAX {
        assert DistPair(ec.minHeatLoss, c) != p;
      }
      forall j | 0 <= j < |At(d', c).sources|
        ensures Sourced(grid, d', At(d', c).sources[j], c)
      {
        assert Sourced(grid, d, ec.sources[j], c);
      }
    }
  }


  /** The heap after a relaxation: the new pair is pushed when the loss improved. */
  function Pushed(heap: seq<DistPair>, pushed: bool, loss: nat, n: Coord): (r: seq<DistPair>)
    ensures forall p :: p in heap ==> p in r
    ensures pushed ==> DistPair(loss, n) in r
  {
    if pushed then heap + [DistPair(loss, n)] else heap
  }

  /** The pairs of the heap stay valid through a relaxation. */
  lemma RelaxPairs(grid: seq<seq<nat>>, d: seq<seq<Entry>>, heap: seq<DistPair>, last: nat, n: Coord, e: Entry, loss: nat, pushed: bool)
    requires Inv(grid, d, heap, last) && InGrid(grid, n)
    requires e.minHeatLoss <= At(d, n).minHeatLoss
    requires pushed ==> e.minHeatLoss == loss && last <= loss < USIZE_MAX
    ensures var h := Pushed(heap, pushed, loss, n);
      forall j :: 0 <= j < |h| ==> PairOk(grid, Put(d, n, e), last, h[j])
  {
    var h := Pushed(heap, pushed, loss, n);
    forall j | 0 <= j < |h|
      ensures PairOk(grid, Put(d, n, e), last, h[j])
    {
      if j < |heap| {
        assert h[j] == heap[j];
        assert PairOk(grid, d, last, heap[j]);
      }
    }
  }

  /**
   * A block other than the relaxed one keeps its invariant: a source of it
   * is expanded, so it is not a block whose loss just improved.
   */
  lemma RelaxOther(grid: seq<seq<nat>>, d: seq<seq<Entry>>, heap: seq<DistPair>, last: nat, n: Coord, e: Entry, h: seq<DistPair>, c: Coord)
    requires Inv(grid, d, heap, last) && InGrid(grid, n) && InGrid(grid, c) && c != n
    requires e.seen == At(d, n).seen
    requires e.minHeatLoss != At(d, n).minHeatLoss ==> !e.seen
    requires forall p :: p in heap ==> p in h
    ensures CellOk(grid, Put(d, n, e), h, last, c)
  {
    assert CellOk(grid, d, heap, last, c);
    var d' := Put(d, n, e);
    forall j | 0 <= j < |At(d', c).sources|
      ensures Sourced(grid, d', At(d', c).sources[j], c)
    {
      assert Sourced(grid, d, At(d, c).sources[j], c);
    }
  }

  /** The relaxed block keeps its invariant. */
  lemma RelaxTarget(grid: seq<seq<nat>>, d: seq<seq<Entry>>, heap: seq<DistPair>, last: nat, coord: Coord, n: Coord, e: Entry, pushed: bool)
    requires Inv(grid, d, heap, last)
    requires InGrid(grid, coord) && At(d, coord).seen && At(d, coord).minHeatLoss == last
    requires InGrid(grid, n) && n in CardinalNeighbors(coord)
    requires (e, pushed) == Relaxed(At(d, n), last + Heat(grid, n), coord)
    ensures CellOk(grid, Put(d, n, e), Pushed(heap, pushed, last + Heat(grid, n), n), last, n)
  {
    var old_e := At(d, n);
    var d' := Put(d, n, e);
    assert CellOk(grid, d, heap, last, n);
    if coord != n {
      assert At(d', coord) == At(d, coord);
    }
    forall j | 0 <= j < |e.sources|
      ensures Sourced(grid, d', e.sources[j], n)
    {
      if j < |old_e.sources| && !pushed {
        assert Sourced(grid, d, old_e.sources[j], n);
        if old_e.sources[j] != n {
          assert At(d', old_e.sources[j]) == At(d, old_e.sources[j]);
        }
      }
    }
  }

  /**
   * Relaxing a neighbour of the block just expanded keeps the invariant; a
   * push lowers the total loss. An expanded neighbour is never improved,
   * since its loss is at most the popped one.
   */
  lemma RelaxKeeps(grid: seq<seq<nat>>, d: seq<seq<Entry>>, heap: seq<DistPair>, last: nat, coord: Coord, n: Coord,
                    e: Entry, pushed: bool)
    requires Inv(grid, d, heap, last)
    requires InGrid(grid, coord) && At(d, coord).seen && At(d, coord).minHeatLoss == last
    requires InGrid(grid, n) && n in CardinalNeighbors(coord)
    requires (e, pushed) == Relaxed(At(d, n), last + Heat(grid, n), coord)
    ensures Inv(grid, Put(d, n, e), Pushed(heap, pushed, last + Heat(grid, n), n), last)
    ensures pushed ==> TotalLoss(Put(d, n, e)) < TotalLoss(d)
    ensures !pushed ==> TotalLoss(Put(d, n, e)) == TotalLoss(d)
  {
    var loss := last + Heat(grid, n);
    var h := Pushed(heap, pushed, loss, n);
    var d' := Put(d, n, e);
    TotalLossPut(d, n, e);
    assert Shape(grid, d');
    assert At(d, n).minHeatLoss <= USIZE_MAX by {
      assert CellOk(grid, d, heap, last, n);
    }
    RelaxPairs(grid, d, heap, last, n, e, loss, pushed);
    RelaxCells(grid, d, heap, last, coord, n, e, pushed);
    InvIntro(grid, d', h, last);
  }

  /** Every block of the grid is still in order after the relaxation. */
  lemma RelaxCells(grid: seq<seq<nat>>, d: seq<seq<Entry>>, heap: seq<DistPair>, last: nat, coord: Coord, n: Coord,
                   e: Entry, pushed: bool)
    requires Inv(grid, d, heap, last)
    requires InGrid(grid, coord) && At(d, coord).seen && At(d, coord).minHeatLoss == last
    requires InGrid(grid, n) && n in CardinalNeighbors(coord)
    requires (e, pushed) == Relaxed(At(d, n), last + Heat(grid, n), coord)
    ensures forall c | InGrid(grid, c) :: CellOk(grid, Put(d, n, e), Pushed(heap, pushed, last + Heat(grid, n), n), last, c)
  {
    var h := Pushed(heap, pushed, last + Heat(grid, n), n);
    assert CellOk(grid, d, heap, last, n);
    forall c | InGrid(grid, c)
      ensures CellOk(grid, Put(d, n, e), h, last, c)
    {
      if c == n {
        RelaxTarget(grid, d, heap, last, coord, n, e, pushed);
      } else {
        RelaxOther(grid, d, heap, last, n, e, h, c);
      }
    }
  }

  /** The three parts of the invariant, put together. */
  lemma InvIntro(grid: seq<seq<nat>>, d: seq<seq<Entry>>, heap: seq<DistPair>, last: nat)
    requires Shape(grid, d)
    requires forall j :: 0 <= j < |heap| ==> PairOk(grid, d, last, heap[j])
    requires forall c | InGrid(grid, c) :: CellOk(grid, d, heap, last, c)
    ensures Inv(grid, d, heap, last)
  {
  }

  /**
   * A neighbour visited from the block just expanded: the invariant is
   * kept, no loss rises, and the total loss falls whenever a pair is pushed.
   */
  lemma VisitKeeps(grid: seq<seq<nat>>, d: seq<seq<Entry>>, heap: seq<DistPair>, last: nat, coord: Coord, n: Coord)
    requires Inv(grid, d, heap, last)
    requires InGrid(grid, coord) && At(d, coord).seen && At(d, coord).minHeatLoss == last
    requires n in CardinalNeighbors(coord)
    ensures var v := Visit(grid, d, heap, coord, last, n);
      v.Ok? ==>
        Inv(grid, v.value.0, v.value.1, last) && Lowered(grid, d, v.value.0) &&
        (TotalLoss(v.value.0) < TotalLoss(d) || (TotalLoss(v.value.0) == TotalLoss(d) && v.value.1 == heap))
  {
    var v := Visit(grid, d, heap, coord, last, n);
    if InGrid(grid, n) && IllegalMovement(d, coord, n) == Ok(false) {
      var r := Relaxed(At(d, n), last + Heat(grid, n), coord);
      VisitRelaxes(grid, d, heap, coord, last, n);
      RelaxKeeps(grid, d, heap, last, coord, n, r.0, r.1);
      LoweredPut(grid, d, d, n, r.0);
    } else if v.Ok? {
      VisitSkips(grid, d, heap, coord, last, n);
      LoweredRefl(grid, d);
    }
  }

  lemma VisitRelaxes(grid: seq<seq<nat>>, d: seq<seq<Entry>>, heap: seq<DistPair>, coord: Coord, loss: nat, n: Coord)
    requires Shape(grid, d) && InGrid(grid, n) && IllegalMovement(d, coord, n) == Ok(false)
    ensures var r := Relaxed(At(d, n), loss + Heat(grid, n), coord);
      Visit(grid, d, heap, coord, loss, n) == Ok((Put(d, n, r.0), Pushed(heap, r.1, loss + Heat(grid, n), n)))
  {
  }

  lemma VisitSkips(grid: seq<seq<nat>>, d: seq<seq<Entry>>, heap: seq<DistPair>, coord: Coord, loss: nat, n: Coord)
    requires Shape(grid, d) && !(InGrid(grid, n) && IllegalMovement(d, coord, n) == Ok(false))
    requires Visit(grid, d, heap, coord, loss, n).Ok?
    ensures Visit(grid, d, heap, coord, loss, n).value == (d, heap)
  {
  }

  lemma LoweredRefl(grid: seq<seq<nat>>, d: seq<seq<Entry>>)
    requires Shape(grid, d)
    ensures Lowered(grid, d, d)
  {
  }

  /** The solver: the heat grid, the Dijkstra table and the heap of blocks to expand. */
  class Solver {
    var grid: seq<seq<nat>>
    var dijkstra: seq<seq<Entry>>
    var closest: seq<DistPair>
    /** The loss of the pair popped last. */
    ghost var floor: nat

    ghost predicate Valid()
      reads this
    {
      Inv(grid, dijkstra, closest, floor)
    }

    constructor (grid: seq<seq<nat>>)
      requires |grid| > 0 && |grid[0]| > 0 && IsRect(grid, |grid|, |grid[0]|)
      ensures this.grid == grid && Valid()
      ensures forall c :: InGrid(grid, c) ==> At(dijkstra, c) == if c == Coord(0, 0) then Entry(0, false, []) else Unreached
      ensures closest == [DistPair(0, Coord(0, 0))]
    {
      this.grid := grid;
      var d := seq(|grid|, y => seq(|grid[0]|, x => Unreached));
      d := d[0 := d[0][0 := Entry(0, false, [])]];
      dijkstra := d;
      closest := [DistPair(0, Coord(0, 0))];
      floor := 0;
      new;
      forall c | InGrid(grid, c)
        ensures CellOk(this.grid, dijkstra, closest, floor, c)
      {
      }
    }

    /** `Solver::new`: a grid with no block panics when the start entry is set. */
    static method New(grid: seq<seq<nat>>) returns (r: Result<Solver>)
      requires IsRect(grid, |grid|, if |grid| == 0 then 0 else |grid[0]|)
      ensures r.Panic? <==> |grid| == 0 || |grid[0]| == 0
      ensures r.Ok? ==> fresh(r.value) && r.value.grid == grid && r.value.Valid()
      ensures r.Ok? ==> r.value.closest == [DistPair(0, Coord(0, 0))]
      ensures r.Ok? ==> forall c :: InGrid(grid, c) ==>
        At(r.value.dijkstra, c) == if c == Coord(0, 0) then Entry(0, false, []) else Unreached
    {
      if |grid| == 0 || |grid[0]| == 0 {
        return Panic("Array2D index out of bounds");
      }
      var solver := new Solver(grid);
      return Ok(solver);
    }

    /** `Solver::is_illegal_movement`. */
    method IsIllegalMovement(start: Coord, end: Coord) returns (r: Result<bool>)
      ensures r == IllegalMovement(dijkstra, start, end)
    {
      var endDirection := DirectionTo(start, end);
      if endDirection.Panic? {
        return Panic(endDirection.reason);
      }
      var d := dijkstra;
      var current := start;
      for k := 0 to 3
        invariant IllegalMovement(d, start, end) == IllegalAfter(d, start, endDirection.value, current, 3 - k)
      {
        if !(current.y < |d| && current.x < |d[current.y]|) {
          return Panic("called `Option::unwrap()` on a `None` value");
        }
        var sources := d[current.y][current.x].sources;
        if |sources| != 1 {
          return Ok(false);
        }
        var dir := DirectionTo(sources[0], start);
        if dir.Panic? {
          return Panic(dir.reason);
        }
        if dir.value != endDirection.value {
          return Ok(false);
        }
        current := sources[0];
      }
      return Ok(true);
    }

    /**
     * One neighbour in the loop of `run_dijkstra`, from the block `coord`
     * just expanded with loss `loss`.
     */
    method VisitNeighbor(coord: Coord, loss: nat, n: Coord) returns (r: Result<()>)
      requires Shape(grid, dijkstra)
      modifies this
      ensures grid == old(grid) && floor == old(floor)
      ensures var v := Visit(grid, old(dijkstra), old(closest), coord, loss, n);
        (r.Panic? <==> v.Panic?) && (v.Ok? ==> dijkstra == v.value.0 && closest == v.value.1)
    {
      if !InGrid(grid, n) {
        VisitSkips(grid, dijkstra, closest, coord, loss, n);
        return Ok(());
      }
      var illegal := IsIllegalMovement(coord, n);
      if illegal.Panic? {
        return Panic(illegal.reason);
      }
      if illegal.value {
        VisitSkips(grid, dijkstra, closest, coord, loss, n);
        return Ok(());
      }
      VisitRelaxes(grid, dijkstra, closest, coord, loss, n);
      Relax(coord, loss + grid[n.y][n.x], n);
      return Ok(());
    }

    /** The comparison of `run_dijkstra` between a new loss and the entry of `n`. */
    method Relax(coord: Coord, newLoss: nat, n: Coord)
      requires InGrid(grid, n) && Shape(grid, dijkstra)
      modifies this
      ensures grid == old(grid) && floor == old(floor)
      ensures var r := Relaxed(At(old(dijkstra), n), newLoss, coord);
        dijkstra == Put(old(dijkstra), n, r.0) && closest == Pushed(old(closest), r.1, newLoss, n)
    {
      var neighbor := dijkstra[n.y][n.x];
      if newLoss < neighbor.minHeatLoss {
        dijkstra := Put(dijkstra, n, Entry(newLoss, neighbor.seen, [coord]));
        closest := closest + [DistPair(newLoss, n)];
      } else if newLoss == neighbor.minHeatLoss {
        dijkstra := Put(dijkstra, n, neighbor.(sources := neighbor.sources + [coord]));
      } else {
        assert dijkstra[n.y][n.x := neighbor] == dijkstra[n.y];
        assert Put(dijkstra, n, neighbor) == dijkstra;
      }
    }

    /** The four neighbours of a block just expanded. */
    method ExpandFrom(coord: Coord, loss: nat) returns (r: Result<()>)
      requires Valid() && InGrid(grid, coord) && At(dijkstra, coord).seen && At(dijkstra, coord).minHeatLoss == loss == floor
      modifies this
      ensures grid == old(grid) && floor == old(floor)
      ensures r.Ok? ==> Valid() && Lowered(grid, old(dijkstra), dijkstra)
      ensures r.Ok? ==>
        TotalLoss(dijkstra) < old(TotalLoss(dijkstra)) ||
        (TotalLoss(dijkstra) == old(TotalLoss(dijkstra)) && closest == old(closest))
    {
      var neighbors := CardinalNeighbors(coord);
      for k := 0 to 4
        invariant grid == old(grid) && floor == old(floor)
        invariant Valid() && At(dijkstra, coord).seen && At(dijkstra, coord).minHeatLoss == floor
        invariant Lowered(grid, old(dijkstra), dijkstra)
        invariant
          TotalLoss(dijkstra) < old(TotalLoss(dijkstra)) ||
          (TotalLoss(dijkstra) == old(TotalLoss(dijkstra)) && closest == old(closest))
      {
        ghost var d0 := dijkstra;
        VisitKeeps(grid, dijkstra, closest, floor, coord, neighbors[k]);
        r := VisitNeighbor(coord, loss, neighbors[k]);
        if r.Panic? {
          return;
        }
        LoweredTrans(grid, old(dijkstra), d0, dijkstra);
      }
      return Ok(());
    }

    /**
     * `Solver::run_dijkstra`: pairs are popped until the heap is empty; a
     * block is expanded only the first time it is popped.
     */
    method RunDijkstra() returns (r: Result<()>)
      requires Valid()
      modifies this
      ensures grid == old(grid)
      ensures r.Ok? ==> Valid() && closest == [] && Settled(grid, dijkstra) && Lowered(grid, old(dijkstra), dijkstra)
    {
      while |closest| > 0
        invariant grid == old(grid) && Valid() && Lowered(grid, old(dijkstra), dijkstra)
        decreases TotalLoss(dijkstra), |closest|
      {
        ghost var d0 := dijkstra;
        r := PopNearest();
        if r.Panic? {
          return;
        }
        LoweredTrans(grid, old(dijkstra), d0, dijkstra);
      }
      SettledAtEnd(grid, dijkstra, floor);
      return Ok(());
    }

    /**
     * One turn of the loop of `run_dijkstra`: the nearest pair is popped
     * and its block expanded unless it already was.  The total loss falls,
     * or stays while the heap shrinks.
     */
    method PopNearest() returns (r: Result<()>)
      requires Valid() && |closest| > 0
      modifies this
      ensures grid == old(grid)
      ensures r.Ok? ==> Valid() && Lowered(grid, old(dijkstra), dijkstra)
      ensures r.Ok? ==>
        TotalLoss(dijkstra) < old(TotalLoss(dijkstra)) ||
        (TotalLoss(dijkstra) == old(TotalLoss(dijkstra)) && |closest| < old(|closest|))
    {
      var i := Nearest(closest);
      var p := closest[i];
      InGridAt(grid, dijkstra, p.coord);
      var entry := dijkstra[p.coord.y][p.coord.x];
      if entry.seen {
        PopSeen(grid, dijkstra, closest, floor);
        LoweredRefl(grid, dijkstra);
        closest := Remove(closest, i);
        floor := p.loss;
        return Ok(());
      }
      PopFresh(grid, dijkstra, closest, floor);
      TotalLossPut(dijkstra, p.coord, entry.(seen := true));
      LoweredRefl(grid, dijkstra);
      LoweredSeen(grid, dijkstra, dijkstra, p.coord);
      dijkstra := Put(dijkstra, p.coord, entry.(seen := true));
      closest := Remove(closest, i);
      floor := p.loss;
      ghost var d1 := dijkstra;
      r := ExpandFrom(p.coord, p.loss);
      if r.Ok? {
        LoweredTrans(grid, old(dijkstra), d1, dijkstra);
      }
    }
  }

  /** Lowering one entry's loss and keeping its flag keeps the table lowered. */
  lemma LoweredPut(grid: seq<seq<nat>>, d0: seq<seq<Entry>>, d1: seq<seq<Entry>>, n: Coord, e: Entry)
    requires Shape(grid, d0) && Shape(grid, d1) && Lowered(grid, d0, d1) && InGrid(grid, n)
    requires e.minHeatLoss <= At(d1, n).minHeatLoss && (At(d1, n).seen ==> e.seen)
    ensures Shape(grid, Put(d1, n, e)) && Lowered(grid, d0, Put(d1, n, e))
  {
  }

  lemma LoweredSeen(grid: seq<seq<nat>>, d0: seq<seq<Entry>>, d1: seq<seq<Entry>>, c: Coord)
    requires Shape(grid, d0) && Shape(grid, d1) && Lowered(grid, d0, d1) && InGrid(grid, c)
    ensures Shape(grid, Put(d1, c, At(d1, c).(seen := true)))
    ensures Lowered(grid, d0, Put(d1, c, At(d1, c).(seen := true)))
  {
  }

  lemma LoweredTrans(grid: seq<seq<nat>>, d0: seq<seq<Entry>>, d1: seq<seq<Entry>>, d2: seq<seq<Entry>>)
    requires Shape(grid, d0) && Shape(grid, d1) && Shape(grid, d2) && Lowered(grid, d0, d1) && Lowered(grid, d1, d2)
    ensures Lowered(grid, d0, d2)
  {
  }

  /** Every loss in the table fits in a `usize`. */
  lemma CellBound(grid: seq<seq<nat>>, d: seq<seq<Entry>>, heap: seq<DistPair>, last: nat, c: Coord)
    requires Inv(grid, d, heap, last) && InGrid(grid, c)
    ensures c.y < |d| && c.x < |d[c.y]| && At(d, c).minHeatLoss <= USIZE_MAX
  {
    assert CellOk(grid, d, heap, last, c);
  }

  /** With the heap empty, the invariant says that the table is settled. */
  lemma SettledAtEnd(grid: seq<seq<nat>>, d: seq<seq<Entry>>, last: nat)
    requires Inv(grid, d, [], last)
    ensures Settled(grid, d)
  {
    forall c | InGrid(grid, c)
      ensures (At(d, c).seen || At(d, c).minHeatLoss == USIZE_MAX)
    {
      assert CellOk(grid, d, [], last, c);
    }
    forall c | InGrid(grid, c)
      ensures forall j :: 0 <= j < |At(d, c).sources| ==> Sourced(grid, d, At(d, c).sources[j], c)
    {
      assert CellOk(grid, d, [], last, c);
    }
  }
}
