/**
 * Day 10, "Pipe Maze" (src/bin/day10.rs): the map holds one closed loop of
 * pipes through the animal's starting tile 'S'; `part1` sends two heads
 * from 'S' round the loop in opposite directions and answers the number of
 * moves after which they meet, the distance of the farthest tile.
 */
module Day10 {
  import opened Text
  import opened Grid

  /** A tile position; both coordinates are `usize` in the source. */
  datatype Coord = Coord(x: nat, y: nat)

  /** `a` and `b` are next to each other horizontally or vertically. */
  predicate Adjacent(a: Coord, b: Coord) {
    (a.y == b.y && (a.x + 1 == b.x || b.x + 1 == a.x)) || (a.x == b.x && (a.y + 1 == b.y || b.y + 1 == a.y))
  }

  // ---------------------------------------------------------------------
  // The neighbours of a tile

  /** `Coord::west`: no tile west of column 0. */
  function West(c: Coord): (r: Option<Coord>)
    ensures r.None? <==> c.x == 0
    ensures r.Some? ==> Adjacent(c, r.value) && r.value.y == c.y && r.value.x < c.x
  {
    if c.x == 0 then None else Some(Coord(c.x - 1, c.y))
  }

  /** `Coord::north`: no tile north of row 0. */
  function North(c: Coord): (r: Option<Coord>)
    ensures r.None? <==> c.y == 0
    ensures r.Some? ==> Adjacent(c, r.value) && r.value.x == c.x && r.value.y < c.y
  {
    if c.y == 0 then None else Some(Coord(c.x, c.y - 1))
  }

  /** `Coord::east`: `checked_add` fails only at `usize::MAX`. */
  function East(c: Coord): (r: Option<Coord>)
    ensures r.None? <==> c.x >= USIZE_MAX
    ensures r.Some? ==> Adjacent(c, r.value) && r.value.y == c.y && r.value.x > c.x
  {
    if c.x >= USIZE_MAX then None else Some(Coord(c.x + 1, c.y))
  }

  /** `Coord::south`: `checked_add` fails only at `usize::MAX`. */
  function South(c: Coord): (r: Option<Coord>)
    ensures r.None? <==> c.y >= USIZE_MAX
    ensures r.Some? ==> Adjacent(c, r.value) && r.value.x == c.x && r.value.y > c.y
  {
    if c.y >= USIZE_MAX then None else Some(Coord(c.x, c.y + 1))
  }

  /** Stepping east undoes a step west and the other way round. */
  lemma EastUndoesWest(c: Coord)
    requires c.x <= USIZE_MAX
    ensures East(c).Some? ==> West(East(c).value) == Some(c)
    ensures West(c).Some? ==> East(West(c).value) == Some(c)
  {
  }

  // ---------------------------------------------------------------------
  // The pipe table

  /** The pipes with an opening on each side. */
  predicate OpensNorth(pipe: char) { pipe == '|' || pipe == 'L' || pipe == 'J' }
  predicate OpensSouth(pipe: char) { pipe == '|' || pipe == '7' || pipe == 'F' }
  predicate OpensWest(pipe: char) { pipe == '-' || pipe == '7' || pipe == 'J' }
  predicate OpensEast(pipe: char) { pipe == '-' || pipe == 'L' || pipe == 'F' }

  /** A pipe at `pos` leads to `q` through one of its openings. */
  predicate Leads(pipe: char, pos: Coord, q: Coord) {
    (OpensWest(pipe) && West(pos) == Some(q)) || (OpensEast(pipe) && East(pos) == Some(q))
    || (OpensNorth(pipe) && North(pos) == Some(q)) || (OpensSouth(pipe) && South(pos) == Some(q))
  }

  /** Some opening of the pipe faces past the edge of the coordinates. */
  predicate OpensOffEdge(pipe: char, pos: Coord) {
    (OpensWest(pipe) && West(pos).None?) || (OpensEast(pipe) && East(pos).None?)
    || (OpensNorth(pipe) && North(pos).None?) || (OpensSouth(pipe) && South(pos).None?)
  }

  /**
   * The match of `get_next_positions` for every tile but 'S': the two tiles
   * a pipe connects, each `unwrap`ped, and None for anything not a pipe.
   */
  function PipeEnds(pipe: char, pos: Coord): (r: Result<Option<(Coord, Coord)>>)
    ensures r == Ok(None) <==> !(OpensWest(pipe) || OpensEast(pipe) || OpensNorth(pipe) || OpensSouth(pipe))
    ensures r.Panic? <==> OpensOffEdge(pipe, pos)
    ensures r.Ok? && r.value.Some? ==>
      r.value.value.0 != r.value.value.1
      && forall q :: (q == r.value.value.0 || q == r.value.value.1) <==> Leads(pipe, pos, q)
  {
    match pipe
    case '|' => if North(pos).None? || South(pos).None? then Panic(Unwrapped) else Ok(Some((North(pos).value, South(pos).value)))
    case '-' => if West(pos).None? || East(pos).None? then Panic(Unwrapped) else Ok(Some((West(pos).value, East(pos).value)))
    case '7' => if West(pos).None? || South(pos).None? then Panic(Unwrapped) else Ok(Some((West(pos).value, South(pos).value)))
    case 'L' => if East(pos).None? || North(pos).None? then Panic(Unwrapped) else Ok(Some((East(pos).value, North(pos).value)))
    case 'J' => if West(pos).None? || North(pos).None? then Panic(Unwrapped) else Ok(Some((West(pos).value, North(pos).value)))
    case 'F' => if East(pos).None? || South(pos).None? then Panic(Unwrapped) else Ok(Some((East(pos).value, South(pos).value)))
    case _ => Ok(None)
  }

  const Unwrapped := "called `Option::unwrap()` on a `None` value"

  // ---------------------------------------------------------------------
  // The map

  /** `PipeMap::get`: the tile at a position, or None outside the map. */
  function Get(grid: seq<seq<char>>, pos: Coord): (r: Option<char>)
    ensures r.Some? <==> pos.y < |grid| && pos.x < |grid[pos.y]|
    ensures r.Some? ==> r.value == grid[pos.y][pos.x]
  {
    if pos.y < |grid| && pos.x < |grid[pos.y]| then Some(grid[pos.y][pos.x]) else None
  }

  /**
   * `PipeMap::new`: as wide as the first line, one row per line, filled
   * from all the lines in turn; indexing the first line panics when there
   * are no lines, and `unwrap` when the lines hold too few tiles.
   */
  function ReadMap(lines: seq<string>): (r: Result<seq<seq<char>>>)
    ensures r.Ok? <==> |lines| > 0 && |Concat(lines)| >= |lines| * |lines[0]|
    ensures r.Ok? ==> IsRect(r.value, |lines|, |lines[0]|)
  {
    if |lines| == 0 then Panic("index out of bounds")
    else FromRowMajor(Concat(lines), |lines|, |lines[0]|)
  }

  /** Lines of one width are read back as they are. */
  lemma ReadMapRect(lines: seq<string>)
    requires |lines| > 0 && IsRect(lines, |lines|, |lines[0]|)
    ensures ReadMap(lines) == Ok(lines)
  {
    ConcatLength(lines, |lines|, |lines[0]|);
    RowsConcat(lines, |lines|, |lines[0]|);
  }

  /** Cutting the row-major layout of a rectangular map into rows gives the map back. */
  lemma {:induction false} RowsConcat<T>(g: seq<seq<T>>, h: nat, w: nat)
    requires IsRect(g, h, w)
    ensures |Concat(g)| == h * w && Rows(Concat(g), h, w) == g
  {
    ConcatLength(g, h, w);
    if h > 0 {
      RowsConcat(g[1..], h - 1, w);
      assert Concat(g) == g[0] + Concat(g[1..]);
      assert Concat(g)[w..] == Concat(g[1..]);
      assert Concat(g)[..w] == g[0];
      assert Concat(g)[..h * w] == Concat(g);
    }
  }

  // ---------------------------------------------------------------------
  // The starting tile

  /** The first 'S' in reading order, looking from row `y` down. */
  function StartFrom(grid: seq<seq<char>>, y: nat): (r: Option<Coord>)
    ensures r.Some? ==> (y <= r.value.y < |grid| && r.value.x < |grid[r.value.y]|
      && grid[r.value.y][r.value.x] == 'S' && 'S' !in grid[r.value.y][..r.value.x]
      && forall y' :: y <= y' < r.value.y ==> 'S' !in grid[y'])
    ensures r.None? ==> forall y' :: y <= y' < |grid| ==> 'S' !in grid[y']
    decreases |grid| - y
  {
    if y >= |grid| then None
    else match IndexOf(grid[y], 'S')
      case Some(x) => Some(Coord(x, y))
      case None => StartFrom(grid, y + 1)
  }

  /** `get_starting_position`: searches the rows in turn for an 'S'. */
  method GetStartingPosition(grid: seq<seq<char>>) returns (r: Option<Coord>)
    ensures r == StartFrom(grid, 0)
  {
    for y := 0 to |grid|
      invariant StartFrom(grid, y) == StartFrom(grid, 0)
    {
      var x := IndexOf(grid[y], 'S');
      if x.Some? {
        return Some(Coord(x.value, y));
      }
    }
    return None;
  }

  // ---------------------------------------------------------------------
  // Following the pipes

  /** `iter.flatten()` over options: the values of those that are present, in order. */
  function Flatten(opts: seq<Option<Coord>>): (r: seq<Coord>)
    ensures forall q :: q in r <==> Some(q) in opts
    ensures (forall i, j :: 0 <= i < j < |opts| && opts[i].Some? ==> opts[i] != opts[j]) ==> Distinct(r)
  {
    if |opts| == 0 then []
    else
      assert forall o :: o in opts <==> o == opts[0] || o in opts[1..];
      var rest := Flatten(opts[1..]);
      if opts[0].Some? then [opts[0].value] + rest else rest
  }

  /** The neighbours 'S' tests, in the order west, east, north, south, those that exist. */
  function Neighbours(pos: Coord): (r: seq<Coord>)
    ensures forall q :: q in r ==> Adjacent(pos, q)
    ensures Distinct(r)
  {
    Flatten([West(pos), East(pos), North(pos), South(pos)])
  }

  predicate Distinct(s: seq<Coord>) {
    forall i, j :: 0 <= i < j < |s| ==> s[i] != s[j]
  }

  /**
   * `get_next_positions` called on a neighbour of 'S'.  Off the map `get`
   * is `unwrap`ped; on another 'S' the recursion comes back to the first
   * 'S' and never returns, which the model writes as a panic.
   */
  function NeighbourEnds(grid: seq<seq<char>>, q: Coord): Result<Option<(Coord, Coord)>> {
    match Get(grid, q)
    case None => Panic(Unwrapped)
    case Some(pipe) => if pipe == 'S' then Panic("stack overflow") else PipeEnds(pipe, q)
  }

  /** What `get_next_positions` gives for each tile next to 'S'. */
  type Probe = Coord -> Result<Option<(Coord, Coord)>>

  /** The probe of a map: `NeighbourEnds` on each tile. */
  function ProbeOf(grid: seq<seq<char>>): Probe {
    q => NeighbourEnds(grid, q)
  }

  /** The pipe at `q` has `pos` as one of its two ends. */
  predicate PointsBack(probe: Probe, q: Coord, pos: Coord) {
    var ends := probe(q);
    ends.Ok? && ends.value.Some? && (ends.value.value.0 == pos || ends.value.value.1 == pos)
  }

  /**
   * The loop of the 'S' case: keeps, in order, the candidates whose pipes
   * point back at `pos`, stopping at the first panic.
   */
  function Connected(probe: Probe, pos: Coord, cands: seq<Coord>): (r: Result<seq<Coord>>)
    ensures r.Ok? ==> forall q :: q in r.value <==> q in cands && PointsBack(probe, q, pos)
    ensures r.Ok? && Distinct(cands) ==> Distinct(r.value)
    ensures r.Panic? <==> exists i :: 0 <= i < |cands| && probe(cands[i]).Panic?
  {
    if |cands| == 0 then Ok([])
    else
      var ends := probe(cands[0]);
      if ends.Panic? then Panic(ends.reason)
      else
        match Connected(probe, pos, cands[1..])
        case Panic(why) =>
          Panic(why)
        case Ok(rest) =>
          assert forall q :: q in cands <==> q == cands[0] || q in cands[1..];
          if PointsBack(probe, cands[0], pos) then Ok([cands[0]] + rest) else Ok(rest)
  }

  /**
   * The 'S' case of `get_next_positions`: the neighbours that point back at
   * `pos`, asserting that there are exactly two.
   */
  function StartEnds(probe: Probe, pos: Coord): (r: Result<(Coord, Coord)>)
    ensures r.Ok? ==> r.value.0 != r.value.1 && Adjacent(pos, r.value.0) && Adjacent(pos, r.value.1)
    ensures r.Ok? ==> forall q :: q in Neighbours(pos) && PointsBack(probe, q, pos) <==> q == r.value.0 || q == r.value.1
  {
    match Connected(probe, pos, Neighbours(pos))
    case Panic(why) => Panic(why)
    case Ok(res) =>
      if |res| != 2 then Panic("assertion `left == right` failed")
      else
        PairOf(res);
        assert res[0] in Neighbours(pos) && res[1] in Neighbours(pos);
        Ok((res[0], res[1]))
  }

  /** Two distinct coordinates, and nothing else. */
  lemma PairOf(res: seq<Coord>)
    requires |res| == 2 && Distinct(res)
    ensures res[0] != res[1] && res[0] in res && res[1] in res
    ensures forall q :: q in res <==> q == res[0] || q == res[1]
  {
  }

  /**
   * `get_next_positions`: the two tiles a pipe connects; for 'S' the two
   * neighbours that point back at it.
   */
  function NextPositions(grid: seq<seq<char>>, pos: Coord): (r: Result<Option<(Coord, Coord)>>)
    ensures r.Ok? && r.value.Some? ==>
      r.value.value.0 != r.value.value.1 && Adjacent(pos, r.value.value.0) && Adjacent(pos, r.value.value.1)
    ensures Get(grid, pos) == Some('S') ==> r == (match StartEnds(ProbeOf(grid), pos) case Ok(ends) => Ok(Some(ends)) case Panic(why) => Panic(why))
  {
    match Get(grid, pos)
    case None => Panic(Unwrapped)
    case Some(pipe) =>
      if pipe != 'S' then
        var r := PipeEnds(pipe, pos);
        assert r.Ok? && r.value.Some? ==> Leads(pipe, pos, r.value.value.0) && Leads(pipe, pos, r.value.value.1);
        r
      else
        match StartEnds(ProbeOf(grid), pos)
        case Panic(why) => Panic(why)
        case Ok(ends) => Ok(Some(ends))
  }

  /**
   * `get_next_position`: of the two ends of the pipe at `target`, the one
   * that is not `previous` (the first end when neither is).
   */
  function NextPosition(grid: seq<seq<char>>, target: Coord, previous: Coord): (r: Result<Option<Coord>>)
    ensures r.Ok? <==> NextPositions(grid, target).Ok?
    ensures r.Ok? ==> (r.value.Some? <==> NextPositions(grid, target).value.Some?)
    ensures r.Ok? && r.value.Some? ==> Adjacent(target, r.value.value)
    ensures r.Ok? && r.value.Some? && NextPositions(grid, target).value.value.1 == previous ==> r.value.value != previous
    ensures r.Ok? && r.value.Some? && NextPositions(grid, target).value.value.0 == previous ==>
      r.value.value != previous && r.value.value == NextPositions(grid, target).value.value.1
  {
    match NextPositions(grid, target)
    case Panic(why) => Panic(why)
    case Ok(None) => Ok(None)
    case Ok(Some(ends)) => Ok(Some(if ends.0 == previous then ends.1 else ends.0))
  }

  // ---------------------------------------------------------------------
  // The two heads

  /** A move of a head: where it goes from `target` having come from `previous`. */
  type Mover = (Coord, Coord) -> Result<Option<Coord>>

  /** The moves along the pipes of a map, `get_next_position`. */
  function Along(grid: seq<seq<char>>): Mover {
    (target, previous) => NextPosition(grid, target, previous)
  }

  /**
   * A head's previous and current tile after `n` moves, starting on `cur`
   * having come from `prev`; a move off the pipes panics as the `expect`
   * of `get_farthest_distance_on_loop` does.
   */
  function Walk(move: Mover, prev: Coord, cur: Coord, n: nat): Result<(Coord, Coord)>
  {
    if n == 0 then Ok((prev, cur))
    else
      match Walk(move, prev, cur, n - 1)
      case Panic(why) => Panic(why)
      case Ok(last) =>
        match move(last.1, last.0)
        case Panic(why) => Panic(why)
        case Ok(None) => Panic("heads should always be on pipes")
        case Ok(Some(next)) => Ok((last.1, next))
  }

  /** Each move of a head along the pipes goes to a neighbouring tile. */
  lemma WalkAdjacent(grid: seq<seq<char>>, prev: Coord, cur: Coord, n: nat)
    requires n > 0 && Walk(Along(grid), prev, cur, n).Ok?
    ensures Adjacent(Walk(Along(grid), prev, cur, n).value.0, Walk(Along(grid), prev, cur, n).value.1)
  {
    var last := Walk(Along(grid), prev, cur, n - 1).value;
    assert NextPosition(grid, last.1, last.0).Ok?;
  }

  /** The head starting on `first` out of 'S' has made `n` moves without panicking. */
  predicate Reaches(move: Mover, start: Coord, first: Coord, n: nat) {
    Walk(move, start, first, n).Ok?
  }

  /** Where that head stands after `n` moves. */
  function Head(move: Mover, start: Coord, first: Coord, n: nat): Coord
    requires Reaches(move, start, first, n)
  {
    Walk(move, start, first, n).value.1
  }

  /** The starting tile and the two tiles it connects, or the panic on the way there. */
  function Heads(grid: seq<seq<char>>): Result<(Coord, Coord, Coord)> {
    match StartFrom(grid, 0)
    case None => Panic("internal error: entered unreachable code")
    case Some(start) =>
      match NextPositions(grid, start)
      case Panic(why) => Panic(why)
      case Ok(None) => Panic("Starting position should be connected to pipes")
      case Ok(Some(ends)) => Ok((start, ends.0, ends.1))
  }

  /**
   * In round `i` the left head makes its `i`-th move onto the right head's
   * tile, or the right head makes its `i`-th move onto the left head's.
   */
  predicate MeetIn(move: Mover, h: (Coord, Coord, Coord), i: nat) {
    i >= 1 && Reaches(move, h.0, h.1, i) && Reaches(move, h.0, h.2, i - 1)
    && (Head(move, h.0, h.1, i) == Head(move, h.0, h.2, i - 1)
        || (Reaches(move, h.0, h.2, i) && Head(move, h.0, h.1, i) == Head(move, h.0, h.2, i)))
  }

  /** Round `i` completes with both heads moved and apart. */
  predicate PassIn(move: Mover, h: (Coord, Coord, Coord), i: nat) {
    i >= 1 && Reaches(move, h.0, h.1, i) && Reaches(move, h.0, h.2, i - 1) && Reaches(move, h.0, h.2, i)
    && Head(move, h.0, h.1, i) != Head(move, h.0, h.2, i - 1) && Head(move, h.0, h.1, i) != Head(move, h.0, h.2, i)
  }

  /**
   * `k` moves counted from 'S' bring the heads together for the first
   * time: every earlier round passes and round `k - 1` meets.
   */
  predicate FirstMeeting(move: Mover, h: (Coord, Coord, Coord), k: nat) {
    k >= 2 && MeetIn(move, h, k - 1) && forall i :: 1 <= i < k - 1 ==> PassIn(move, h, i)
  }

  /** The heads meet for the first time at one move count only. */
  lemma FirstMeetingUnique(move: Mover, h: (Coord, Coord, Coord), k: nat)
    requires FirstMeeting(move, h, k)
    ensures forall k': nat :: FirstMeeting(move, h, k') ==> k' == k
  {
    forall k': nat | k' != k
      ensures !FirstMeeting(move, h, k')
    {
      if 2 <= k' < k {
        assert PassIn(move, h, k' - 1);
      } else if k' > k {
        assert !PassIn(move, h, k - 1);
      }
    }
  }

  /**
   * `get_farthest_distance_on_loop`, stopped after `bound` moves: finds
   * the starting tile and its two ends, then races the heads.
   */
  method FarthestDistance(grid: seq<seq<char>>, bound: nat) returns (r: Result<nat>)
    ensures r.Ok? ==> Heads(grid).Ok? && FirstMeeting(Along(grid), Heads(grid).value, r.value)
    ensures r.Panic? ==> Heads(grid).Panic? || forall k: nat :: k <= bound ==> !FirstMeeting(Along(grid), Heads(grid).value, k)
  {
    var found := GetStartingPosition(grid);
    if found.None? {
      return Panic("internal error: entered unreachable code");
    }
    var start := found.value;
    var ends := NextPositions(grid, start);
    if ends.Panic? {
      return Panic(ends.reason);
    }
    if ends.value.None? {
      return Panic("Starting position should be connected to pipes");
    }
    assert Heads(grid) == Ok((start, ends.value.value.0, ends.value.value.1));
    r := Race(Along(grid), start, ends.value.value.0, ends.value.value.1, bound);
  }

  /**
   * The loop of `get_farthest_distance_on_loop`: the heads leave `start`
   * for `left` and `right`, and each round moves the left head, then the
   * right one, until one lands on the other.  The source loops for ever
   * when they never meet; here that shows as a panic after `bound` moves.
   */
  method Race(move: Mover, start: Coord, left: Coord, right: Coord, bound: nat) returns (r: Result<nat>)
    ensures r.Ok? ==> FirstMeeting(move, (start, left, right), r.value)
    ensures r.Panic? ==> forall k: nat :: k <= bound ==> !FirstMeeting(move, (start, left, right), k)
  {
    ghost var h := (start, left, right);
    var leftHead, rightHead := left, right;
    var slowLeftHead, slowRightHead := start, start;
    var moveCounter := 1;
    while true
      invariant moveCounter >= 1
      invariant Walk(move, start, left, moveCounter - 1) == Ok((slowLeftHead, leftHead))
      invariant Walk(move, start, right, moveCounter - 1) == Ok((slowRightHead, rightHead))
      invariant forall i :: 1 <= i < moveCounter ==> PassIn(move, h, i)
      decreases bound - moveCounter
    {
      if moveCounter >= bound {
        NoMeetingYet(move, h, moveCounter, bound);
        return Panic("no meeting within the bound");
      }
      moveCounter := moveCounter + 1;
      var next := move(leftHead, slowLeftHead);
      if next.Panic? || next.value.None? {
        NeverMeets(move, h, moveCounter - 1);
        return if next.Panic? then Panic(next.reason) else Panic("left head should always be on pipes");
      }
      if next.value.value == rightHead {
        return Ok(moveCounter);
      }
      slowLeftHead, leftHead := leftHead, next.value.value;
      next := move(rightHead, slowRightHead);
      if next.Panic? || next.value.None? {
        NeverMeetsRight(move, h, moveCounter - 1);
        return if next.Panic? then Panic(next.reason) else Panic("heads should always be on pipes");
      }
      if next.value.value == leftHead {
        return Ok(moveCounter);
      }
      slowRightHead, rightHead := rightHead, next.value.value;
    }
  }

  /** Rounds that all passed leave no first meeting up to the move after them. */
  lemma NoMeetingYet(move: Mover, h: (Coord, Coord, Coord), moves: nat, bound: nat)
    requires forall i :: 1 <= i < moves ==> PassIn(move, h, i)
    requires bound <= moves
    ensures forall k: nat :: k <= bound ==> !FirstMeeting(move, h, k)
  {
    forall k: nat | k <= bound
      ensures !FirstMeeting(move, h, k)
    {
      if k >= 2 {
        assert PassIn(move, h, k - 1);
      }
    }
  }

  /** Once the left head cannot make its `i`-th move, no round from `i` on meets or passes. */
  lemma NeverMeets(move: Mover, h: (Coord, Coord, Coord), i: nat)
    requires i >= 1 && !Reaches(move, h.0, h.1, i)
    requires forall j :: 1 <= j < i ==> PassIn(move, h, j)
    ensures forall k: nat :: !FirstMeeting(move, h, k)
  {
    forall k: nat
      ensures !FirstMeeting(move, h, k)
    {
      if 2 <= k && k - 1 > i {
        assert !PassIn(move, h, i);
      } else if 2 <= k && k - 1 < i {
        assert PassIn(move, h, k - 1);
      }
    }
  }

  /** Once the right head cannot make its `i`-th move after the left head's did not meet it. */
  lemma NeverMeetsRight(move: Mover, h: (Coord, Coord, Coord), i: nat)
    requires i >= 1 && Reaches(move, h.0, h.1, i) && Reaches(move, h.0, h.2, i - 1) && !Reaches(move, h.0, h.2, i)
    requires Head(move, h.0, h.1, i) != Head(move, h.0, h.2, i - 1)
    requires forall j :: 1 <= j < i ==> PassIn(move, h, j)
    ensures forall k: nat :: !FirstMeeting(move, h, k)
  {
    forall k: nat
      ensures !FirstMeeting(move, h, k)
    {
      if 2 <= k && k - 1 > i {
        assert !PassIn(move, h, i);
      } else if 2 <= k && k - 1 < i {
        assert PassIn(move, h, k - 1);
      }
    }
  }

  // ---------------------------------------------------------------------
  // part1

  /**
   * `part1`: reads the map from the lines before the first empty one and
   * answers the number of moves at which the heads meet.
   */
  method Part1(contents: string, bound: nat) returns (r: Result<nat>)
    ensures r.Ok? ==> (ReadMap(Lines(contents)).Ok?
      && var grid := ReadMap(Lines(contents)).value; Heads(grid).Ok? && FirstMeeting(Along(grid), Heads(grid).value, r.value))
    ensures r.Panic? && ReadMap(Lines(contents)).Ok? ==>
      var grid := ReadMap(Lines(contents)).value;
      Heads(grid).Panic? || forall k: nat :: k <= bound ==> !FirstMeeting(Along(grid), Heads(grid).value, k)
  {
    var grid := ReadMap(Lines(contents));
    if grid.Panic? {
      return Panic(grid.reason);
    }
    r := FarthestDistance(grid.value, bound);
  }
}
