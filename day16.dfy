/**
 * Day 16 (`src/bin/day16.rs`): a beam of light enters a contraption of
 * mirrors and splitters at the top-left tile heading East; the answer is the
 * number of tiles some beam passes through. Beams are simulated round by
 * round, and a beam whose tile and direction were already seen is dropped.
 */
module Day16 {
  import opened Text
  import opened Grid

  datatype Coord = Coord(x: nat, y: nat)

  datatype Direction = North | West | South | East

  /** `Direction::is_vertical`. */
  predicate IsVertical(d: Direction) {
    d == North || d == South
  }

  /** `Beam`: a `Copy` value, compared and hashed by position and direction. */
  datatype Beam = Beam(position: Coord, direction: Direction)

  /** `Beam::shift`: one tile on in the beam's direction; North or West of 0 wraps to `usize::MAX`. */
  function Shift(b: Beam): (r: Beam)
    ensures r.direction == b.direction
    ensures IsVertical(b.direction) ==> r.position.x == b.position.x
    ensures !IsVertical(b.direction) ==> r.position.y == b.position.y
    ensures b.direction == South ==> r.position.y == b.position.y + 1
    ensures b.direction == East ==> r.position.x == b.position.x + 1
    ensures b.direction == North ==> r.position.y + 1 == b.position.y || (b.position.y == 0 && r.position.y == USIZE_MAX)
    ensures b.direction == West ==> r.position.x + 1 == b.position.x || (b.position.x == 0 && r.position.x == USIZE_MAX)
  {
    var p := b.position;
    match b.direction
    case North => b.(position := Coord(p.x, WrappingDec(p.y)))
    case West => b.(position := Coord(WrappingDec(p.x), p.y))
    case South => b.(position := Coord(p.x, p.y + 1))
    case East => b.(position := Coord(p.x + 1, p.y))
  }

  function Opposite(d: Direction): Direction {
    match d
    case North => South
    case West => East
    case South => North
    case East => West
  }

  /** Shifting back the opposite way returns to the tile, unless the first shift wrapped. */
  lemma ShiftBack(b: Beam)
    requires !(b.direction == North && b.position.y == 0) && !(b.direction == West && b.position.x == 0)
    ensures Shift(Beam(Shift(b).position, Opposite(b.direction))).position == b.position
  {
  }

  /**
   * `Beam::reflect`: `'/'` swaps North with East and West with South; any
   * other mirror swaps North with West and South with East.
   */
  function Reflect(b: Beam, mirror: char): (r: Beam)
    ensures r.position == b.position
    ensures IsVertical(r.direction) != IsVertical(b.direction)
  {
    if mirror == '/' then
      b.(direction := match b.direction
        case North => East
        case West => South
        case South => West
        case East => North)
    else
      b.(direction := match b.direction
        case North => West
        case West => North
        case South => East
        case East => South)
  }

  /** Reflecting twice in the same mirror restores the beam. */
  lemma ReflectInvolution(b: Beam, mirror: char)
    ensures Reflect(Reflect(b, mirror), mirror) == b
  {
  }

  /** A splitter whose orientation the beam already runs along. */
  predicate Parallel(d: Direction, splitter: char) {
    (IsVertical(d) && splitter == '|') || (!IsVertical(d) && splitter == '-')
  }

  /**
   * `Beam::handle_split`: along the splitter the beam passes on; across it
   * the beam turns North (or West) where it stands, and a copy turned South
   * (or East) is returned.
   */
  function HandleSplit(b: Beam, splitter: char): (r: (Beam, Option<Beam>))
    ensures Parallel(b.direction, splitter) ==> r == (Shift(b), None)
    ensures !Parallel(b.direction, splitter) ==>
      r.1.Some? && r.0.position == b.position && r.1.value.position == b.position &&
      r.0.direction == (if splitter == '|' then North else West) &&
      r.1.value.direction == Opposite(r.0.direction)
  {
    if Parallel(b.direction, splitter) then (Shift(b), None)
    else if splitter == '|' then (b.(direction := North), Some(b.(direction := South)))
    else (b.(direction := West), Some(b.(direction := East)))
  }

  /** A perpendicular `'|'` or `'-'` turns the beam across its old axis, in both directions. */
  lemma SplitTurns(b: Beam, splitter: char)
    requires splitter == '|' || splitter == '-'
    requires !Parallel(b.direction, splitter)
    ensures var r := HandleSplit(b, splitter);
      r.1.Some? && IsVertical(r.0.direction) != IsVertical(b.direction) &&
      IsVertical(r.1.value.direction) != IsVertical(b.direction)
  {
  }

  /**
   * The `match` on the tile under a beam in `part1`: the beam after it, and
   * the beam a splitter adds. Any tile other than `.`, `/`, `\`, `|` and `-`
   * reaches `unreachable!()`.
   */
  function Advance(tile: char, b: Beam): (r: Result<(Beam, Option<Beam>)>)
    ensures r.Ok? <==> tile in {'.', '/', '\\', '|', '-'}
    ensures r.Ok? && r.value.1.Some? ==> tile in {'|', '-'}
  {
    match tile
    case '.' => Ok((Shift(b), None))
    case '/' => Ok((Shift(Reflect(b, tile)), None))
    case '\\' => Ok((Shift(Reflect(b, tile)), None))
    case '|' => Ok(HandleSplit(b, tile))
    case '-' => Ok(HandleSplit(b, tile))
    case _ => Panic("internal error: entered unreachable code")
  }

  // Reachable beams

  /** `Array2D::get` finds a tile. */
  predicate OnMap(grid: seq<seq<char>>, c: Coord) {
    c.y < |grid| && c.x < |grid[c.y]|
  }

  const Start := Beam(Coord(0, 0), East)

  /** The beams that come out of `b` on the map. */
  function Outputs(p: (Beam, Option<Beam>)): seq<Beam> {
    [p.0] + if p.1.Some? then [p.1.value] else []
  }

  /** Beam `i` of a trace is one that beam `i - 1` becomes on its tile. */
  ghost predicate Follows(grid: seq<seq<char>>, t: seq<Beam>, i: nat)
    requires 0 < i < |t|
  {
    var b := t[i - 1];
    OnMap(grid, b.position) &&
    var a := Advance(grid[b.position.y][b.position.x], b);
    a.Ok? && t[i] in Outputs(a.value)
  }

  /** A history of one beam from the start. */
  ghost predicate Trace(grid: seq<seq<char>>, t: seq<Beam>) {
    |t| > 0 && t[0] == Start && forall i {:trigger Follows(grid, t, i)} :: 0 < i < |t| ==> Follows(grid, t, i)
  }

  /** Some beam gets into this position and direction. */
  ghost predicate Reachable(grid: seq<seq<char>>, b: Beam) {
    exists t :: Trace(grid, t) && t[|t| - 1] == b
  }

  lemma StartReachable(grid: seq<seq<char>>)
    ensures Reachable(grid, Start)
  {
    assert Trace(grid, [Start]);
  }

  /** Whatever a reachable beam on the map becomes is reachable. */
  lemma ReachableStep(grid: seq<seq<char>>, b: Beam, s: Beam)
    requires Reachable(grid, b) && OnMap(grid, b.position)
    requires var a := Advance(grid[b.position.y][b.position.x], b); a.Ok? && s in Outputs(a.value)
    ensures Reachable(grid, s)
  {
    var t :| Trace(grid, t) && t[|t| - 1] == b;
    var t' := t + [s];
    forall i | 0 < i < |t'|
      ensures Follows(grid, t', i)
    {
      if i < |t| {
        assert Follows(grid, t, i);
        assert t'[i - 1] == t[i - 1] && t'[i] == t[i];
      }
    }
    assert Trace(grid, t');
  }

  /**
   * A set of beams holding the start (when it is on the map) and, for each
   * beam, whatever it becomes on the map, holds every reachable beam on the
   * map.
   */
  ghost predicate Closed(grid: seq<seq<char>>, v: set<Beam>) {
    forall b {:trigger Leads(grid, v, [], b)} :: b in v ==> Leads(grid, v, [], b)
  }

  /**
   * `b` is on the map, its tile is one the simulation knows, and whatever it
   * becomes on the map is in `v` or still `pending`.
   */
  ghost predicate Leads(grid: seq<seq<char>>, v: set<Beam>, pending: seq<Beam>, b: Beam) {
    OnMap(grid, b.position) &&
    var a := Advance(grid[b.position.y][b.position.x], b);
    a.Ok? && forall s :: s in Outputs(a.value) && OnMap(grid, s.position) ==> s in v || s in pending
  }

  lemma {:induction false} ClosedHoldsTrace(grid: seq<seq<char>>, v: set<Beam>, t: seq<Beam>, k: nat)
    requires Closed(grid, v) && (OnMap(grid, Start.position) ==> Start in v)
    requires Trace(grid, t) && k < |t| && OnMap(grid, t[k].position)
    ensures t[k] in v
    decreases k
  {
    if k > 0 {
      assert Follows(grid, t, k);
      ClosedHoldsTrace(grid, v, t, k - 1);
      ClosedLeads(grid, v, t[k - 1]);
      LeadsInto(grid, v, t, k);
    }
  }

  lemma ClosedLeads(grid: seq<seq<char>>, v: set<Beam>, b: Beam)
    requires Closed(grid, v) && b in v
    ensures Leads(grid, v, [], b)
  {
  }

  /** The step of a history out of a beam that leads into `v` ends in `v` when it stays on the map. */
  lemma LeadsInto(grid: seq<seq<char>>, v: set<Beam>, t: seq<Beam>, i: nat)
    requires 0 < i < |t| && Follows(grid, t, i) && Leads(grid, v, [], t[i - 1]) && OnMap(grid, t[i].position)
    ensures t[i] in v
  {
  }

  /** A closed set that holds the start holds every reachable beam on the map. */
  lemma ClosedHoldsReachable(grid: seq<seq<char>>, v: set<Beam>, b: Beam)
    requires Closed(grid, v) && (OnMap(grid, Start.position) ==> Start in v)
    requires Reachable(grid, b) && OnMap(grid, b.position)
    ensures b in v
  {
    var t :| Trace(grid, t) && t[|t| - 1] == b;
    ClosedHoldsTrace(grid, v, t, |t| - 1);
  }

  // The record of energized tiles

  /** The beams the map of energized tiles records: each tile with each direction seen on it. */
  ghost function Seen(energized: map<Coord, set<Direction>>): set<Beam> {
    set c, d | c in energized && d in energized[c] :: Beam(c, d)
  }

  /** `energized_tiles.get(pos).is_some_and(|ds| ds.contains(dir))`. */
  predicate Recorded(energized: map<Coord, set<Direction>>, b: Beam)
    ensures Recorded(energized, b) <==> b in Seen(energized)
  {
    b.position in energized && b.direction in energized[b.position]
  }

  /** `entry(pos).or_insert_with(HashSet::new).insert(dir)`. */
  function Record(energized: map<Coord, set<Direction>>, b: Beam): (r: map<Coord, set<Direction>>)
    ensures Seen(r) == Seen(energized) + {b}
    ensures r.Keys == energized.Keys + {b.position}
  {
    var r := energized[b.position := (if b.position in energized then energized[b.position] else {}) + {b.direction}];
    assert forall x :: x in Seen(r) ==> x in Seen(energized) + {b} by {
      forall x | x in Seen(r)
        ensures x in Seen(energized) + {b}
      {
        assert x.position in r && x.direction in r[x.position];
      }
    }
    assert forall x :: x in Seen(energized) + {b} ==> x in Seen(r) by {
      forall x | x in Seen(energized) + {b}
        ensures x in Seen(r)
      {
        assert x.position in r && x.direction in r[x.position];
      }
    }
    r
  }

  /** The tiles of a set of beams. */
  ghost function Tiles(v: set<Beam>): set<Coord> {
    set b | b in v :: b.position
  }

  lemma SeenTiles(energized: map<Coord, set<Direction>>)
    requires forall c :: c in energized ==> energized[c] != {}
    ensures Tiles(Seen(energized)) == energized.Keys
  {
    forall c | c in energized
      ensures c in Tiles(Seen(energized))
    {
      var d :| d in energized[c];
      assert Beam(c, d) in Seen(energized);
    }
  }

  /** All beams on the map, which bounds the simulation. */
  ghost function AllBeams(grid: seq<seq<char>>): set<Beam> {
    set y: nat, x: nat, d: Direction | y < |grid| && x < |grid[y]| && d in {North, West, South, East} :: Beam(Coord(x, y), d)
  }

  lemma InAllBeams(grid: seq<seq<char>>, b: Beam)
    requires OnMap(grid, b.position)
    ensures b in AllBeams(grid)
  {
    var c := b.position;
    assert Beam(Coord(c.x, c.y), b.direction) == b;
    assert b.direction == North || b.direction == West || b.direction == South || b.direction == East;
    assert b.direction in {North, West, South, East};
  }

  // The simulation

  /** A beam on the map whose tile makes `part1` reach `unreachable!()`. */
  ghost predicate Stuck(grid: seq<seq<char>>, b: Beam) {
    Reachable(grid, b) && OnMap(grid, b.position) && Advance(grid[b.position.y][b.position.x], b).Panic?
  }

  /**
   * The state between two rounds: every recorded beam is reachable and on
   * the map, and what it becomes is recorded or still among the `beams`;
   * every beam waiting is reachable; the start is recorded, waiting or off
   * the map; no tile is recorded without a direction.
   */
  ghost predicate Between(grid: seq<seq<char>>, energized: map<Coord, set<Direction>>, beams: seq<Beam>) {
    var v := Seen(energized);
    (forall c :: c in energized ==> energized[c] != {}) &&
    v <= AllBeams(grid) &&
    (forall b :: b in v ==> Reachable(grid, b) && Leads(grid, v, beams, b)) &&
    (forall b :: b in beams ==> Reachable(grid, b)) &&
    (OnMap(grid, Start.position) ==> Start in v || Start in beams)
  }

  /**
   * The state after `i` beams of a round: each of them is recorded or off
   * the map, as is each beam marked for removal; what a recorded beam
   * becomes is recorded, marked, moved on in `bs` or queued in `future`;
   * with nothing recorded yet, every beam so far was marked and left as it
   * was.
   */
  ghost predicate RoundInv(grid: seq<seq<char>>, energized: map<Coord, set<Direction>>, beams: seq<Beam>,
                           e: map<Coord, set<Direction>>, bs: seq<Beam>, future: seq<Beam>, removed: set<Beam>, i: nat)
    requires i <= |beams| == |bs|
  {
    var v := Seen(e);
    (forall c :: c in e ==> e[c] != {}) &&
    v <= AllBeams(grid) &&
    (forall j :: 0 <= j < i ==> beams[j] in v || !OnMap(grid, beams[j].position)) &&
    (forall x :: x in removed ==> x in v || !OnMap(grid, x.position)) &&
    (forall b :: b in v ==> Reachable(grid, b) && Leads(grid, v, bs + future, b)) &&
    (forall b :: b in bs + future ==> Reachable(grid, b)) &&
    (OnMap(grid, Start.position) ==> Start in v || Start in bs) &&
    (v == Seen(energized) ==> bs == beams && future == [] && forall j :: 0 <= j < i ==> beams[j] in removed)
  }

  /** The beams of `s` not in `removed`, in order (`Vec::retain`). */
  function Retain(s: seq<Beam>, removed: set<Beam>): (r: seq<Beam>)
    ensures forall x :: x in r <==> x in s && x !in removed
    ensures |r| <= |s|
  {
    if |s| == 0 then []
    else (if s[0] in removed then [] else [s[0]]) + Retain(s[1..], removed)
  }

  lemma RetainNone(s: seq<Beam>, removed: set<Beam>)
    requires forall x :: x in s ==> x in removed
    ensures Retain(s, removed) == []
  {
  }

  /**
   * One round of the `while` loop in `part1`: each beam already recorded or
   * off the map is marked for removal; any other is recorded and moved on
   * its tile, a split adding a beam for the next round. The round records a
   * new beam, or leaves no beam at all.
   */
  method Round(grid: seq<seq<char>>, energized: map<Coord, set<Direction>>, beams: seq<Beam>)
    returns (r: Result<(map<Coord, set<Direction>>, seq<Beam>)>)
    requires Between(grid, energized, beams)
    ensures r.Panic? ==> exists b :: Stuck(grid, b)
    ensures r.Ok? ==> Between(grid, r.value.0, r.value.1) && Seen(energized) <= Seen(r.value.0)
    ensures r.Ok? ==> Seen(energized) < Seen(r.value.0) || r.value.1 == []
  {
    var e := energized;
    var bs := beams;
    var future: seq<Beam> := [];
    var removed: set<Beam> := {};
    RoundStart(grid, energized, beams);
    for i := 0 to |bs|
      invariant |bs| == |beams| && forall j :: i <= j < |bs| ==> bs[j] == beams[j]
      invariant Seen(energized) <= Seen(e)
      invariant RoundInv(grid, energized, beams, e, bs, future, removed, i)
    {
      var beam := bs[i];
      if Recorded(e, beam) {
        RoundSkip(grid, energized, beams, e, bs, future, removed, i);
        removed := removed + {beam};
        continue;
      }
      if OnMap(grid, beam.position) {
        var a := Advance(grid[beam.position.y][beam.position.x], beam);
        if a.Panic? {
          RoundStuck(grid, energized, beams, e, bs, future, removed, i);
          return Panic(a.reason);
        }
        var more := if a.value.1.Some? then [a.value.1.value] else [];
        ghost var e0, bs0, future0 := e, bs, future;
        e := Record(e, beam);
        bs := bs[i := a.value.0];
        future := future + more;
        RoundMove(grid, energized, beams, e0, bs0, future0, removed, i, e, bs, future);
      } else {
        RoundSkip(grid, energized, beams, e, bs, future, removed, i);
        removed := removed + {beam};
      }
    }
    RoundEnd(grid, energized, beams, e, bs, future, removed);
    return Ok((e, Retain(bs, removed) + future));
  }

  lemma RoundStart(grid: seq<seq<char>>, energized: map<Coord, set<Direction>>, beams: seq<Beam>)
    requires Between(grid, energized, beams)
    ensures RoundInv(grid, energized, beams, energized, beams, [], {}, 0)
  {
    assert beams + [] == beams;
  }

  /** A beam already recorded, or off the map, is marked for removal. */
  lemma RoundSkip(grid: seq<seq<char>>, energized: map<Coord, set<Direction>>, beams: seq<Beam>,
                  e: map<Coord, set<Direction>>, bs: seq<Beam>, future: seq<Beam>, removed: set<Beam>, i: nat)
    requires i < |beams| == |bs| && bs[i] == beams[i]
    requires RoundInv(grid, energized, beams, e, bs, future, removed, i)
    requires Recorded(e, bs[i]) || !OnMap(grid, bs[i].position)
    ensures RoundInv(grid, energized, beams, e, bs, future, removed + {bs[i]}, i + 1)
  {
  }

  /** A beam about to hit an unknown tile is reachable. */
  lemma RoundStuck(grid: seq<seq<char>>, energized: map<Coord, set<Direction>>, beams: seq<Beam>,
                   e: map<Coord, set<Direction>>, bs: seq<Beam>, future: seq<Beam>, removed: set<Beam>, i: nat)
    requires i < |beams| == |bs|
    requires RoundInv(grid, energized, beams, e, bs, future, removed, i)
    requires OnMap(grid, bs[i].position) && Advance(grid[bs[i].position.y][bs[i].position.x], bs[i]).Panic?
    ensures Stuck(grid, bs[i])
  {
    assert bs[i] in bs + future;
  }

  /** Replacing beam `i` and queueing more keeps every other pending beam pending. */
  lemma PendingMoved(bs: seq<Beam>, future: seq<Beam>, i: nat, next: Beam, more: seq<Beam>)
    requires i < |bs|
    ensures forall s :: s in bs + future ==> s == bs[i] || s in bs[i := next] + (future + more)
  {
    forall s | s in bs + future && s != bs[i]
      ensures s in bs[i := next] + (future + more)
    {
      if s in bs {
        var j :| 0 <= j < |bs| && bs[j] == s;
        assert bs[i := next][j] == s;
      } else {
        assert s in future + more;
      }
    }
  }

  /** Recording `b` and moving it on keeps every recorded beam leading into recorded or pending ones. */
  lemma MoveLeads(grid: seq<seq<char>>, v: set<Beam>, pending: seq<Beam>, b: Beam, pending': seq<Beam>)
    requires forall x :: x in v ==> Leads(grid, v, pending, x)
    requires forall s :: s in pending ==> s == b || s in pending'
    requires Leads(grid, v + {b}, pending', b)
    ensures forall x :: x in v + {b} ==> Leads(grid, v + {b}, pending', x)
  {
    forall x | x in v + {b} && x != b
      ensures Leads(grid, v + {b}, pending', x)
    {
      assert Leads(grid, v, pending, x);
    }
  }

  /**
   * Moving a new beam on: every beam seen so far, the new one included,
   * is reachable and leads to the pending beams, which are all reachable.
   */
  lemma MoveReaches(grid: seq<seq<char>>, e: map<Coord, set<Direction>>, bs: seq<Beam>, future: seq<Beam>, i: nat,
                     e': map<Coord, set<Direction>>, bs': seq<Beam>, future': seq<Beam>)
    requires i < |bs| && OnMap(grid, bs[i].position)
    requires forall x :: x in Seen(e) ==> Reachable(grid, x) && Leads(grid, Seen(e), bs + future, x)
    requires forall x :: x in bs + future ==> Reachable(grid, x)
    requires var b := bs[i];
      var a := Advance(grid[b.position.y][b.position.x], b);
      a.Ok? && e' == Record(e, b) && bs' == bs[i := a.value.0] &&
      future' == future + if a.value.1.Some? then [a.value.1.value] else []
    ensures forall x :: x in Seen(e') ==> Reachable(grid, x) && Leads(grid, Seen(e'), bs' + future', x)
    ensures forall x :: x in bs' + future' ==> Reachable(grid, x)
  {
    var b := bs[i];
    var a := Advance(grid[b.position.y][b.position.x], b).value;
    var more := if a.1.Some? then [a.1.value] else [];
    var v, v' := Seen(e), Seen(e');
    assert b in bs + future;
    InAllBeams(grid, b);
    PendingMoved(bs, future, i, a.0, more);
    forall s | s in Outputs(a)
      ensures Reachable(grid, s) && s in bs' + future'
    {
      ReachableStep(grid, b, s);
      if s == a.0 {
        assert bs'[i] == s;
      } else {
        assert s in more;
        assert s in future';
      }
    }
    assert Leads(grid, v', bs' + future', b);
    MoveLeads(grid, v, bs + future, b, bs' + future');
    forall x | x in bs' + future'
      ensures Reachable(grid, x)
    {
      if x !in Outputs(a) {
        assert x in bs + future;
      }
    }
  }

  /** A new beam on the map is recorded and moved on; a split queues its copy. */
  lemma RoundMove(grid: seq<seq<char>>, energized: map<Coord, set<Direction>>, beams: seq<Beam>,
                  e: map<Coord, set<Direction>>, bs: seq<Beam>, future: seq<Beam>, removed: set<Beam>, i: nat,
                  e': map<Coord, set<Direction>>, bs': seq<Beam>, future': seq<Beam>)
    requires i < |beams| == |bs| && bs[i] == beams[i]
    requires RoundInv(grid, energized, beams, e, bs, future, removed, i) && Seen(energized) <= Seen(e)
    requires !Recorded(e, bs[i]) && OnMap(grid, bs[i].position)
    requires var b := bs[i];
      var a := Advance(grid[b.position.y][b.position.x], b);
      a.Ok? && e' == Record(e, b) && bs' == bs[i := a.value.0] &&
      future' == future + if a.value.1.Some? then [a.value.1.value] else []
    ensures |bs'| == |beams| && RoundInv(grid, energized, beams, e', bs', future', removed, i + 1)
    ensures Seen(energized) < Seen(e')
  {
    var b := bs[i];
    var v, v' := Seen(e), Seen(e');
    MoveReaches(grid, e, bs, future, i, e', bs', future');
    assert forall c :: c in e' ==> e'[c] != {};
    assert v' <= AllBeams(grid);
    assert v' == v + {b};
    forall j | 0 <= j < i + 1
      ensures beams[j] in v' || !OnMap(grid, beams[j].position)
    {
    }
    assert forall x :: x in removed ==> x in v' || !OnMap(grid, x.position);
    if OnMap(grid, Start.position) && Start !in v' {
      var j :| 0 <= j < |bs| && bs[j] == Start;
      assert bs'[j] == Start;
    }
    assert b !in Seen(energized);
    assert v' != Seen(energized);
  }

  /** After the last beam, the marked beams are dropped and the queued ones added. */
  lemma RoundEnd(grid: seq<seq<char>>, energized: map<Coord, set<Direction>>, beams: seq<Beam>,
                 e: map<Coord, set<Direction>>, bs: seq<Beam>, future: seq<Beam>, removed: set<Beam>)
    requires |beams| == |bs|
    requires RoundInv(grid, energized, beams, e, bs, future, removed, |beams|) && Seen(energized) <= Seen(e)
    ensures Between(grid, e, Retain(bs, removed) + future)
    ensures Seen(energized) < Seen(e) || Retain(bs, removed) + future == []
  {
    var v := Seen(e);
    var next := Retain(bs, removed) + future;
    forall x | x in v
      ensures Leads(grid, v, next, x)
    {
      assert Leads(grid, v, bs + future, x);
    }
    if v == Seen(energized) {
      forall x | x in bs
        ensures x in removed
      {
        var j :| 0 <= j < |bs| && bs[j] == x;
      }
      RetainNone(bs, removed);
    }
  }

  /**
   * `part1`'s simulation: rounds run until no beam is left. The recorded
   * beams are then exactly the reachable beams on the map.
   */
  method Energize(grid: seq<seq<char>>) returns (r: Result<map<Coord, set<Direction>>>)
    ensures r.Panic? ==> exists b :: Stuck(grid, b)
    ensures r.Ok? ==> forall b :: b in Seen(r.value) <==> Reachable(grid, b) && OnMap(grid, b.position)
    ensures r.Ok? ==> forall c :: c in r.value ==> r.value[c] != {}
  {
    var energized: map<Coord, set<Direction>> := map[];
    var beams := [Start];
    StartReachable(grid);
    while |beams| > 0
      invariant Between(grid, energized, beams)
      decreases AllBeams(grid) - Seen(energized), |beams|
    {
      var next := Round(grid, energized, beams);
      if next.Panic? {
        return Panic(next.reason);
      }
      energized, beams := next.value.0, next.value.1;
    }
    var v := Seen(energized);
    forall b | Reachable(grid, b) && OnMap(grid, b.position)
      ensures b in v
    {
      ClosedHoldsReachable(grid, v, b);
    }
    return Ok(energized);
  }

  /** `part1`: the number of tiles some beam passes through. */
  method Part1(contents: string) returns (r: Result<int>)
    ensures Read2dMap(contents).Panic? ==> r.Panic?
    ensures r.Panic? && Read2dMap(contents).Ok? ==> exists b :: Stuck(Read2dMap(contents).value, b)
    ensures r.Ok? ==>
      Read2dMap(contents).Ok? &&
      exists v: set<Beam> ::
        (forall b :: b in v <==> Reachable(Read2dMap(contents).value, b) && OnMap(Read2dMap(contents).value, b.position)) &&
        r.value == |Tiles(v)|
  {
    var read := Read2dMap(contents);
    if read.Panic? {
      return Panic(read.reason);
    }
    var energized := Energize(read.value);
    if energized.Panic? {
      return Panic(energized.reason);
    }
    SeenTiles(energized.value);
    return Ok(|energized.value.Keys|);
  }
}
