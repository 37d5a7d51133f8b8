/**
 * The second phase of day 17 (`Solver::search_with_bound` in
 * `src/bin/day17.rs`): a breadth-first search over crucible walks, bounded
 * by the loss Dijkstra's algorithm found for the bottom-right block, and
 * `part1`, which runs both phases on a map read from the puzzle text.
 */
module Day17Search {
  import opened Text
  import opened Grid
  import opened Day17

  /** The direction of a move between two distinct blocks, as `direction_to` gives it. */
  function Heading(a: Coord, b: Coord): (r: Direction)
    ensures a != b ==> DirectionTo(a, b) == Ok(r)
  {
    match DirectionTo(a, b)
    case Ok(d) => d
    case Panic(_) => South
  }

  /** The directions of the moves along a walk. */
  function Headings(p: seq<Coord>): (r: seq<Direction>)
    ensures |r| == if |p| == 0 then 0 else |p| - 1
    ensures forall i {:trigger r[i]} :: 0 <= i < |r| ==> r[i] == Heading(p[i], p[i + 1])
  {
    if |p| <= 1 then [] else seq(|p| - 1, i requires 0 <= i < |p| - 1 => Heading(p[i], p[i + 1]))
  }

  lemma HeadingsSnoc(p: seq<Coord>, n: Coord)
    requires |p| > 0
    ensures Headings(p + [n]) == Headings(p) + [Heading(p[|p| - 1], n)]
  {
    var q := p + [n];
    assert forall i :: 0 <= i < |p| ==> q[i] == p[i];
  }

  /**
   * The crucible's rules on a sequence of moves: the first is not North
   * (the opposite of the South the search starts facing), no move reverses
   * the one before, and no four moves in a row share a direction.
   */
  ghost predicate Crucible(hs: seq<Direction>) {
    (|hs| > 0 ==> hs[0] != North) &&
    (forall i {:trigger Reverses(hs, i)} :: 0 < i < |hs| ==> !Reverses(hs, i)) &&
    (forall i {:trigger Straight(hs, i)} :: 3 <= i < |hs| ==> !Straight(hs, i))
  }

  /** Move `i` goes back the way move `i - 1` came. */
  predicate Reverses(hs: seq<Direction>, i: nat)
    requires 0 < i < |hs|
  {
    hs[i] == Opposite(hs[i - 1])
  }

  /** Move `i` is the fourth in a row in one direction. */
  predicate Straight(hs: seq<Direction>, i: nat)
    requires 3 <= i < |hs|
  {
    hs[i - 3] == hs[i - 2] == hs[i - 1] == hs[i]
  }

  /** The number of moves at the end of `hs` in the direction of the last one. */
  function Run(hs: seq<Direction>): (r: nat)
    ensures r <= |hs| && (|hs| > 0 ==> r >= 1)
  {
    if |hs| == 0 then 0
    else if |hs| > 1 && hs[|hs| - 2] == hs[|hs| - 1] then Run(hs[..|hs| - 1]) + 1
    else 1
  }

  lemma RunSnoc(hs: seq<Direction>, d: Direction)
    ensures Run(hs + [d]) == if |hs| > 0 && hs[|hs| - 1] == d then Run(hs) + 1 else 1
  {
    assert (hs + [d])[..|hs|] == hs;
  }

  /** When the last three moves share a direction, the run is at least three. */
  lemma {:induction false} RunOfThree(hs: seq<Direction>)
    requires |hs| >= 3 && hs[|hs| - 3] == hs[|hs| - 2] == hs[|hs| - 1]
    ensures Run(hs) >= 3
  {
    var front := hs[..|hs| - 1];
    assert front[|front| - 2] == front[|front| - 1];
    assert Run(front) >= 2;
  }

  /** A walk from the top-left block over neighbouring blocks of the map. */
  ghost predicate Walk(grid: seq<seq<nat>>, p: seq<Coord>) {
    |p| > 0 && p[0] == Coord(0, 0) &&
    (forall i :: 0 <= i < |p| ==> InGrid(grid, p[i])) &&
    (forall i {:trigger Adjacent(p, i)} :: 0 < i < |p| ==> Adjacent(p, i))
  }

  /** Block `i` of a walk is a cardinal neighbour of block `i - 1`. */
  predicate Adjacent(p: seq<Coord>, i: nat)
    requires 0 < i < |p|
  {
    p[i] in CardinalNeighbors(p[i - 1])
  }

  /** The heat lost along a walk: every block entered, not the one it starts on. */
  function PathLoss(grid: seq<seq<nat>>, p: seq<Coord>): nat
    requires |grid| > 0 && IsRect(grid, |grid|, |grid[0]|)
    requires forall i :: 0 <= i < |p| ==> InGrid(grid, p[i])
  {
    if |p| <= 1 then 0
    else
      var c := p[|p| - 1];
      assert InGrid(grid, c) && |grid[c.y]| == |grid[0]|;
      PathLoss(grid, p[..|p| - 1]) + Heat(grid, c)
  }

  /** `SearchStackFrame`. */
  datatype Frame = Frame(position: Coord, restrictive: Direction, ttl: nat, loss: nat)

  /**
   * A frame is where a crucible walk `p` ends: it faces the walk's last
   * direction (South at the start), its ttl is 4 less the length of the last
   * run, and its loss is the walk's.
   */
  ghost predicate FrameOf(grid: seq<seq<nat>>, f: Frame, p: seq<Coord>)
    requires |grid| > 0 && IsRect(grid, |grid|, |grid[0]|)
  {
    var hs := Headings(p);
    Walk(grid, p) && p[|p| - 1] == f.position && Crucible(hs) &&
    f.restrictive == (if |hs| == 0 then South else hs[|hs| - 1]) &&
    f.ttl >= 1 && f.ttl + Run(hs) == 4 && f.loss == PathLoss(grid, p)
  }

  /** A crucible walk to `end` losing `loss`. */
  ghost predicate Reaches(grid: seq<seq<nat>>, p: seq<Coord>, end: Coord, loss: nat)
    requires |grid| > 0 && IsRect(grid, |grid|, |grid[0]|)
  {
    Walk(grid, p) && p[|p| - 1] == end && Crucible(Headings(p)) && PathLoss(grid, p) == loss
  }

  /** A move that passes the checks of `search_with_bound` keeps the crucible's rules and the ttl. */
  lemma CrucibleSnoc(hs: seq<Direction>, restrictive: Direction, ttl: nat, dir: Direction)
    requires Crucible(hs) && restrictive == (if |hs| == 0 then South else hs[|hs| - 1])
    requires ttl >= 1 && ttl + Run(hs) == 4
    requires dir != Opposite(restrictive) && (dir != restrictive || ttl > 1)
    ensures Crucible(hs + [dir])
    ensures (if dir == restrictive then ttl - 1 else 3) + Run(hs + [dir]) == 4
  {
    RunSnoc(hs, dir);
    var hs' := hs + [dir];
    forall i | 0 < i < |hs'|
      ensures !Reverses(hs', i)
    {
      if i < |hs| {
        assert !Reverses(hs, i);
        assert hs'[i] == hs[i] && hs'[i - 1] == hs[i - 1];
      }
    }
    forall i | 3 <= i < |hs'|
      ensures !Straight(hs', i)
    {
      if i < |hs| {
        assert !Straight(hs, i);
        assert hs'[i] == hs[i] && hs'[i - 1] == hs[i - 1] && hs'[i - 2] == hs[i - 2] && hs'[i - 3] == hs[i - 3];
      } else if hs[i - 3] == hs[i - 2] == hs[i - 1] == dir {
        RunOfThree(hs);
      }
    }
  }

  lemma WalkSnoc(grid: seq<seq<nat>>, p: seq<Coord>, n: Coord)
    requires |grid| > 0 && IsRect(grid, |grid|, |grid[0]|) && Walk(grid, p)
    requires InGrid(grid, n) && n in CardinalNeighbors(p[|p| - 1])
    ensures Walk(grid, p + [n])
    ensures PathLoss(grid, p + [n]) == PathLoss(grid, p) + Heat(grid, n)
  {
    var q := p + [n];
    assert q[..|q| - 1] == p;
    assert forall i :: 0 <= i < |p| ==> q[i] == p[i];
    forall i | 0 < i < |q|
      ensures Adjacent(q, i)
    {
      if i < |p| {
        assert Adjacent(p, i);
      }
    }
  }

  /**
   * The frame after moving from `f` to the neighbour `n`: facing the move's
   * direction, one ttl less when it goes on straight and 3 when it turns,
   * the heat of `n` added to the loss.
   */
  function Moved(grid: seq<seq<nat>>, f: Frame, n: Coord): (g: Frame)
    requires |grid| > 0 && IsRect(grid, |grid|, |grid[0]|) && InGrid(grid, n) && f.ttl >= 1
    ensures g.position == n && g.loss >= f.loss
    ensures g.restrictive == f.restrictive ==> g.ttl + 1 == f.ttl
  {
    var dir := Heading(f.position, n);
    Frame(n, dir, if dir == f.restrictive then f.ttl - 1 else 3, f.loss + Heat(grid, n))
  }

  /**
   * One move of `search_with_bound` that passes its checks (no reversal, a
   * ttl left) extends the walk of the frame to a crucible walk.
   */
  lemma FrameStep(grid: seq<seq<nat>>, f: Frame, p: seq<Coord>, n: Coord)
    requires |grid| > 0 && IsRect(grid, |grid|, |grid[0]|) && FrameOf(grid, f, p)
    requires InGrid(grid, n) && n in CardinalNeighbors(f.position)
    requires var g := Moved(grid, f, n); g.restrictive != Opposite(f.restrictive) && g.ttl != 0
    ensures FrameOf(grid, Moved(grid, f, n), p + [n])
  {
    var g := Moved(grid, f, n);
    HeadingsSnoc(p, n);
    CrucibleSnoc(Headings(p), f.restrictive, f.ttl, g.restrictive);
    WalkSnoc(grid, p, n);
  }

  /** `isize` of a `usize` value (`as isize`). */
  function AsIsize(v: nat): (r: int)
    requires v <= USIZE_MAX
    ensures ISIZE_MIN <= r <= ISIZE_MAX
    ensures v <= ISIZE_MAX ==> r == v
  {
    if v <= ISIZE_MAX then v else v - (USIZE_MAX + 1)
  }

  /** What `search_with_bound` does with one neighbour of a popped frame. */
  datatype Step = Skip | Found(loss: nat) | Push(frame: Frame)

  /**
   * The body of the neighbour loop of `search_with_bound`: a block off the
   * map, a reversal, a fourth straight move or a loss not below the
   * bound is skipped; reaching the bottom-right block lowers the bound; a
   * block and direction already queued with at least this ttl and at most
   * this loss is skipped; anything else is queued.
   */
  function Probe(grid: seq<seq<nat>>, f: Frame, n: Coord, upperBound: nat, seen: map<(Coord, Direction), (nat, nat)>): (r: Step)
    requires |grid| > 0 && |grid[0]| > 0 && IsRect(grid, |grid|, |grid[0]|) && f.ttl >= 1 && n in CardinalNeighbors(f.position)
    ensures r.Found? ==> n == End(grid) && r.loss < upperBound
    ensures r.Push? ==> r.frame.position == n != End(grid) && r.frame.loss < upperBound
    ensures r.Push? && (n, r.frame.restrictive) in seen ==>
      var past := seen[(n, r.frame.restrictive)]; r.frame.ttl > past.0 || r.frame.loss < past.1
  {
    if !InGrid(grid, n) then Skip
    else
      var g := Moved(grid, f, n);
      if g.restrictive == Opposite(f.restrictive) || g.ttl == 0 || g.loss >= upperBound then Skip
      else if n == End(grid) then Found(g.loss)
      else if (n, g.restrictive) in seen && g.ttl <= seen[(n, g.restrictive)].0 && g.loss >= seen[(n, g.restrictive)].1 then Skip
      else Push(g)
  }

  /** A bound found or a frame queued by `Probe` ends a crucible walk one block longer than the frame's. */
  lemma ProbeExtends(grid: seq<seq<nat>>, f: Frame, p: seq<Coord>, n: Coord, upperBound: nat, seen: map<(Coord, Direction), (nat, nat)>)
    requires |grid| > 0 && |grid[0]| > 0 && IsRect(grid, |grid|, |grid[0]|) && FrameOf(grid, f, p) && n in CardinalNeighbors(f.position)
    ensures var r := Probe(grid, f, n, upperBound, seen);
      (r.Found? ==> Reaches(grid, p + [n], End(grid), r.loss)) && (r.Push? ==> FrameOf(grid, r.frame, p + [n]))
  {
    var r := Probe(grid, f, n, upperBound, seen);
    if r.Found? || r.Push? {
      FrameStep(grid, f, p, n);
      if r.Found? {
        FrameReaches(grid, Moved(grid, f, n), p + [n]);
      }
    }
  }

  lemma FrameReaches(grid: seq<seq<nat>>, g: Frame, q: seq<Coord>)
    requires |grid| > 0 && IsRect(grid, |grid|, |grid[0]|) && FrameOf(grid, g, q)
    ensures Reaches(grid, q, g.position, g.loss)
  {
  }

  /** Every queued frame ends a crucible walk. */
  ghost predicate Queued(grid: seq<seq<nat>>, queue: seq<Frame>, paths: seq<seq<Coord>>)
    requires |grid| > 0 && IsRect(grid, |grid|, |grid[0]|)
  {
    |paths| == |queue| && forall i :: 0 <= i < |queue| ==> FrameOf(grid, queue[i], paths[i])
  }

  lemma QueuedTail(grid: seq<seq<nat>>, queue: seq<Frame>, paths: seq<seq<Coord>>)
    requires |grid| > 0 && IsRect(grid, |grid|, |grid[0]|) && Queued(grid, queue, paths) && |queue| > 0
    ensures FrameOf(grid, queue[0], paths[0]) && Queued(grid, queue[1..], paths[1..])
  {
    assert forall i :: 0 <= i < |queue| - 1 ==> queue[1..][i] == queue[i + 1] && paths[1..][i] == paths[i + 1];
  }

  lemma QueuedSnoc(grid: seq<seq<nat>>, queue: seq<Frame>, paths: seq<seq<Coord>>, f: Frame, p: seq<Coord>)
    requires |grid| > 0 && IsRect(grid, |grid|, |grid[0]|) && Queued(grid, queue, paths) && FrameOf(grid, f, p)
    ensures Queued(grid, queue + [f], paths + [p])
  {
    assert forall i :: 0 <= i < |queue| ==> (queue + [f])[i] == queue[i] && (paths + [p])[i] == paths[i];
  }

  /** The bottom-right block of a map. */
  function End(grid: seq<seq<nat>>): (r: Coord)
    requires |grid| > 0 && |grid[0]| > 0 && IsRect(grid, |grid|, |grid[0]|)
    ensures InGrid(grid, r) && forall c :: InGrid(grid, c) ==> c.y <= r.y && c.x <= r.x
  {
    Coord(|grid| - 1, |grid[0]| - 1)
  }

  /**
   * `Solver::search_with_bound`, over the solver's map and the Dijkstra loss
   * `bound` of the bottom-right block: a breadth-first search from the
   * top-left block whose bound drops to the loss of every cheaper crucible
   * walk that reaches that block. A state is dropped when the same block and
   * direction was queued before with at least its ttl and at most its loss.
   * `fuel` bounds the number of frames popped: `None` when it runs out.
   */
  method SearchWithBound(grid: seq<seq<nat>>, bound: nat, fuel: nat) returns (r: Option<int>)
    requires |grid| > 0 && |grid[0]| > 0 && IsRect(grid, |grid|, |grid[0]|) && bound <= USIZE_MAX
    ensures r.Some? ==> exists ub: nat ::
      ub <= bound && r.value == AsIsize(ub) && (ub == bound || exists p :: Reaches(grid, p, End(grid), ub))
  {
    var end := End(grid);
    var upperBound: nat := bound;
    ghost var best: seq<Coord> := [];
    var queue := [Frame(Coord(0, 0), South, 4, 0)];
    ghost var paths := [[Coord(0, 0)]];
    var seen: map<(Coord, Direction), (nat, nat)> := map[];
    var fuel := fuel;
    while |queue| > 0
      invariant Queued(grid, queue, paths)
      invariant upperBound <= bound
      invariant upperBound == bound || Reaches(grid, best, end, upperBound)
      decreases fuel
    {
      if fuel == 0 {
        return None;
      }
      fuel := fuel - 1;
      QueuedTail(grid, queue, paths);
      var f := queue[0];
      ghost var p := paths[0];
      assert f.ttl >= 1;
      queue, paths := queue[1..], paths[1..];
      var neighbors := CardinalNeighbors(f.position);
      for k := 0 to 4
        invariant Queued(grid, queue, paths)
        invariant upperBound <= bound
        invariant upperBound == bound || Reaches(grid, best, end, upperBound)
      {
        var n := neighbors[k];
        var step := Probe(grid, f, n, upperBound, seen);
        ProbeExtends(grid, f, p, n, upperBound, seen);
        match step {
          case Skip =>
          case Found(loss) =>
            upperBound := loss;
            best := p + [n];
            break;
          case Push(g) =>
            seen := seen[(n, g.restrictive) := (g.ttl, g.loss)];
            QueuedSnoc(grid, queue, paths, g, p + [n]);
            queue, paths := queue + [g], paths + [p + [n]];
        }
      }
    }
    return Some(AsIsize(upperBound));
  }

  /**
   * `part1`: the map is read, Dijkstra's algorithm runs from the top-left
   * block, and the bounded search gives the answer: at most the loss the
   * settled table holds for the bottom-right block, and either that loss or
   * the loss of a crucible walk to that block.
   */
  method Part1(contents: string, fuel: nat) returns (r: Result<Option<int>>)
    ensures Read2dMapToU8(contents).Panic? ==> r.Panic?
    ensures r.Ok? && r.value.Some? ==>
      var m := Read2dMapToU8(contents).value;
      |m| > 0 && |m[0]| > 0 && IsRect(m, |m|, |m[0]|) &&
      exists d, ub: nat :: Shape(m, d) && Settled(m, d) && ub <= At(d, End(m)).minHeatLoss <= USIZE_MAX && r.value.value == AsIsize(ub) &&
        (ub == At(d, End(m)).minHeatLoss || exists p :: Reaches(m, p, End(m), ub))
  {
    var read := Read2dMapToU8(contents);
    if read.Panic? {
      return Panic(read.reason);
    }
    var grid := read.value;
    var made := Solver.New(grid);
    if made.Panic? {
      return Panic(made.reason);
    }
    var solver := made.value;
    var run := solver.RunDijkstra();
    if run.Panic? {
      return Panic(run.reason);
    }
    var end := End(grid);
    CellBound(solver.grid, solver.dijkstra, solver.closest, solver.floor, end);
    var answer := SearchWithBound(grid, solver.dijkstra[end.y][end.x].minHeatLoss, fuel);
    return Ok(answer);
  }
}
