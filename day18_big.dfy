/**
 * Part 2 of day 18 (`src/bin/day18.rs`, `BigLagoon`): the trench read from
 * the colour codes is far too large to paint cell by cell, so only its
 * corners are kept. They are popped from a max-heap row by row, and the area
 * is measured one row at a time: a row that holds corners is scanned
 * point by point, and the rows between two corner rows are all alike, so
 * one of them is measured and multiplied by their number.
 */
module Day18Big {
  import opened Text
  import opened Day18

  // Corners

  datatype Corner = Northwest | Northeast | Southwest | Southeast

  /**
   * `Corner::from_directions`: the corner where the trench turns from
   * heading `first` to heading `second`.
   */
  function FromDirections(first: Direction, second: Direction): Corner {
    var vertical := if IsVertical(first) then Opposite(first) else second;
    var horizontal := if IsVertical(first) then second else Opposite(first);
    if vertical == North then
      if horizontal == West then Northwest else Northeast
    else if horizontal == West then Southwest else Southeast
  }

  /** `Corner::faces`: the two directions in which the trench leaves the corner. */
  predicate Faces(corner: Corner, d: Direction) {
    match d
    case North => corner == Northwest || corner == Northeast
    case West => corner == Northwest || corner == Southwest
    case South => corner == Southwest || corner == Southeast
    case East => corner == Northeast || corner == Southeast
  }

  /** `Corner::is_bypassable_with`. */
  predicate IsBypassableWith(a: Corner, b: Corner) {
    (Faces(a, North) && Faces(b, North)) || (Faces(a, South) && Faces(b, South))
  }

  /** A corner faces exactly one of North and South and exactly one of West and East. */
  lemma CornerFaces(c: Corner)
    ensures Faces(c, North) != Faces(c, South)
    ensures Faces(c, West) != Faces(c, East)
  {
  }

  /**
   * At a real turn the corner faces back where the trench came from and on
   * where it goes, and it is the only corner that does.
   */
  lemma FromDirectionsFaces(first: Direction, second: Direction)
    requires IsVertical(first) != IsVertical(second)
    ensures Faces(FromDirections(first, second), Opposite(first))
    ensures Faces(FromDirections(first, second), second)
    ensures forall c :: Faces(c, Opposite(first)) && Faces(c, second) ==> c == FromDirections(first, second)
  {
  }

  /**
   * Two corners can be passed by together iff both open to the same side
   * vertically; the relation is symmetric.
   */
  lemma Bypassable(a: Corner, b: Corner)
    ensures IsBypassableWith(a, b) <==> (Faces(a, North) <==> Faces(b, North))
    ensures IsBypassableWith(a, b) == IsBypassableWith(b, a)
  {
  }

  // The heap order

  datatype Ordering = Less | Equal | Greater

  /** `isize::cmp`. */
  function Compare(a: int, b: int): (o: Ordering)
    ensures o == Less <==> a < b
    ensures o == Equal <==> a == b
  {
    if a < b then Less else if a == b then Equal else Greater
  }

  datatype CornerPosition = CornerPosition(corner: Corner, position: Coord)

  /** Reading order: an earlier row, or the same row further west. */
  predicate Before(p: Coord, q: Coord) {
    p.y < q.y || (p.y == q.y && p.x < q.x)
  }

  /**
   * `Ord for CornerPosition`: the reversed order of `(y, x)`, so that the
   * max-heap hands out corners in reading order. The corner kind is ignored.
   */
  function Cmp(p: CornerPosition, q: CornerPosition): (o: Ordering)
    ensures o == Greater <==> Before(p.position, q.position)
    ensures o == Less <==> Before(q.position, p.position)
    ensures o == Equal <==> p.position == q.position
  {
    match Compare(p.position.y, q.position.y)
    case Less => Greater
    case Equal => (
      match Compare(p.position.x, q.position.x)
      case Less => Greater
      case Equal => Equal
      case Greater => Less)
    case Greater => Less
  }

  /** The order is antisymmetric: `p > q` exactly when `q < p`. */
  lemma CmpAntisymmetric(p: CornerPosition, q: CornerPosition)
    ensures Cmp(p, q) == Greater <==> Cmp(q, p) == Less
    ensures Cmp(p, q) == Equal <==> Cmp(q, p) == Equal
  {
  }

  /** The element `BinaryHeap::pop` hands out: one that no other element is greater than. */
  function Top(heap: seq<CornerPosition>): (i: nat)
    requires |heap| > 0
    ensures i < |heap|
    ensures forall j :: 0 <= j < |heap| ==> Cmp(heap[j], heap[i]) != Greater
  {
    if |heap| == 1 then 0
    else
      var i := Top(heap[1..]) + 1;
      assert forall j :: 1 <= j < |heap| ==> heap[j] == heap[1..][j - 1];
      if Cmp(heap[0], heap[i]) == Greater then 0 else i
  }

  function Remove<T>(s: seq<T>, i: nat): (r: seq<T>)
    requires i < |s|
    ensures |r| == |s| - 1
  {
    s[..i] + s[i + 1..]
  }

  lemma RemoveMultiset<T>(s: seq<T>, i: nat)
    requires i < |s|
    ensures multiset(Remove(s, i)) + multiset{s[i]} == multiset(s)
  {
    assert s == s[..i] + [s[i]] + s[i + 1..];
  }

  /** The corners in the order the heap hands them out, popping until it is empty. */
  function Drain(heap: seq<CornerPosition>): seq<CornerPosition>
    decreases |heap|
  {
    if |heap| == 0 then []
    else
      var i := Top(heap);
      [heap[i]] + Drain(Remove(heap, i))
  }

  predicate InReadingOrder(corners: seq<CornerPosition>) {
    forall i, j :: 0 <= i < j < |corners| ==> !Before(corners[j].position, corners[i].position)
  }

  /** The heap hands out every corner once, in reading order. */
  lemma {:induction false} DrainOrder(heap: seq<CornerPosition>)
    ensures multiset(Drain(heap)) == multiset(heap)
    ensures InReadingOrder(Drain(heap))
    decreases |heap|
  {
    if |heap| > 0 {
      var i := Top(heap);
      var rest := Remove(heap, i);
      DrainOrder(rest);
      RemoveMultiset(heap, i);
      var d := Drain(heap);
      assert d == [heap[i]] + Drain(rest);
      forall j | 1 <= j < |d|
        ensures !Before(d[j].position, d[0].position)
      {
        assert d[j] in multiset(Drain(rest));
        assert d[j] in multiset(heap);
      }
    }
  }

  // Reading the outline

  /** One line of the plan as part 2 reads it: the colour code's steps and direction. */
  datatype Move = Move(steps: nat, direction: Direction)

  /**
   * The direction of the plan's last line, which the trench heads in when it
   * reaches the first corner: the character before the first ')'.
   */
  function LastDirection(lines: seq<string>): Result<Direction> {
    if |lines| == 0 then Panic("called `Option::unwrap()` on a `None` value")
    else
      var line := lines[|lines| - 1];
      var head := match IndexOf(line, ')') case None => line case Some(i) => line[..i];
      if |head| == 0 then Panic("called `Option::unwrap()` on a `None` value")
      else DirectionFromChar(head[|head| - 1])
  }

  /**
   * One line of `BigLagoon::from_str`: characters 2 to 8 of the third word
   * are the colour code; its first five are the steps in hexadecimal and its
   * last one the direction.
   */
  function ParseMove(line: string): (r: Result<Move>)
    ensures r.Ok? ==> var tokens := Split(line, ' ');
      |tokens| >= 3 && |tokens[2]| >= 8 &&
      ParseHex(tokens[2][2..7], USIZE_MAX) == Some(r.value.steps) &&
      Digit(r.value.direction) == tokens[2][7]
  {
    var tokens := Split(line, ' ');
    if |tokens| < 3 then Panic("called `Option::unwrap()` on a `None` value")
    else if |tokens[2]| < 8 then Panic("byte index 8 is out of range")
    else
      var hex := tokens[2][2..8];
      assert hex[..5] == tokens[2][2..7];
      match ParseHex(hex[..5], USIZE_MAX)
      case None => Panic("called `Result::unwrap()` on an `Err` value: ParseIntError")
      case Some(steps) => (
        match DirectionFromChar(hex[5])
        case Panic(why) => Panic(why)
        case Ok(d) => Ok(Move(steps, d)))
  }

  /** The state of `BigLagoon::from_str` between lines. */
  datatype Outline = Outline(corners: seq<CornerPosition>, position: Coord, minX: int, minY: int, last: Direction)

  /** One line: a corner where the trench stands, then the walk to the next one. */
  function Turn(o: Outline, m: Move): Outline {
    Outline(o.corners + [CornerPosition(FromDirections(o.last, m.direction), o.position)],
            Shifted(o.position, m.direction, m.steps),
            Min(o.position.x, o.minX), Min(o.position.y, o.minY), m.direction)
  }

  function Trace(first: Direction, moves: seq<Move>): (r: Outline)
    ensures |r.corners| == |moves|
  {
    if |moves| == 0 then Outline([], Coord(0, 0), ISIZE_MAX, ISIZE_MAX, first)
    else Turn(Trace(first, moves[..|moves| - 1]), moves[|moves| - 1])
  }

  /** The heading before move `i`: the last line's for the first move, the previous move's after. */
  function HeadingBefore(first: Direction, moves: seq<Move>, i: nat): Direction
    requires i < |moves|
  {
    if i == 0 then first else moves[i - 1].direction
  }

  /** Each corner is shaped by the headings before and after it. */
  predicate Shaped(first: Direction, moves: seq<Move>, corners: seq<CornerPosition>)
    requires |corners| == |moves|
  {
    forall i {:trigger corners[i]} :: 0 <= i < |moves| ==> corners[i].corner == FromDirections(HeadingBefore(first, moves, i), moves[i].direction)
  }

  /** Each corner lies where the move from the previous one leads. */
  predicate Linked(moves: seq<Move>, corners: seq<CornerPosition>)
    requires |corners| == |moves|
  {
    forall i {:trigger moves[i]} :: 0 <= i < |moves| - 1 ==>
      corners[i + 1].position == Shifted(corners[i].position, moves[i].direction, moves[i].steps)
  }

  /**
   * The outline's corners: the first at the origin, each next one where the
   * move from the previous one leads, and the walk ends where the last move
   * from the last corner leads.
   */
  lemma {:induction false} TracePositions(first: Direction, moves: seq<Move>)
    ensures var o := Trace(first, moves);
      (|moves| > 0 ==> o.corners[0].position == Coord(0, 0)) &&
      Linked(moves, o.corners) &&
      (|moves| > 0 ==> o.position == Shifted(o.corners[|moves| - 1].position, moves[|moves| - 1].direction, moves[|moves| - 1].steps))
  {
    if |moves| > 0 {
      var n := |moves| - 1;
      var prefix := moves[..n];
      TracePositions(first, prefix);
      var p := Trace(first, prefix);
      var o := Trace(first, moves);
      assert o.corners == p.corners + [o.corners[n]];
      assert o.corners[n].position == p.position;
      forall i | 0 <= i < n - 1
        ensures o.corners[i + 1].position == Shifted(o.corners[i].position, moves[i].direction, moves[i].steps)
      {
        assert prefix[i] == moves[i];
        assert o.corners[i] == p.corners[i] && o.corners[i + 1] == p.corners[i + 1];
      }
      if n > 0 {
        assert prefix[n - 1] == moves[n - 1];
        assert o.corners[n - 1] == p.corners[n - 1];
      }
    }
  }

  /** Each corner is shaped by the heading into it (the last line's for the first corner) and out of it. */
  lemma {:induction false} TraceShapes(first: Direction, moves: seq<Move>)
    ensures Shaped(first, moves, Trace(first, moves).corners)
    ensures Trace(first, moves).last == if |moves| == 0 then first else moves[|moves| - 1].direction
  {
    if |moves| > 0 {
      var n := |moves| - 1;
      var prefix := moves[..n];
      TraceShapes(first, prefix);
      var p := Trace(first, prefix);
      var o := Trace(first, moves);
      assert o.corners == p.corners + [o.corners[n]];
      assert prefix == moves[..n];
      ShapedSnoc(first, moves, p.corners, o.corners[n]);
    }
  }

  lemma ShapedSnoc(first: Direction, moves: seq<Move>, corners: seq<CornerPosition>, c: CornerPosition)
    requires |moves| == |corners| + 1 && Shaped(first, moves[..|corners|], corners)
    requires c.corner == FromDirections(HeadingBefore(first, moves, |corners|), moves[|corners|].direction)
    ensures Shaped(first, moves, corners + [c])
  {
    var n := |corners|;
    var prefix := moves[..n];
    forall i | 0 <= i <= n
      ensures (corners + [c])[i].corner == FromDirections(HeadingBefore(first, moves, i), moves[i].direction)
    {
      if i < n {
        assert prefix[i] == moves[i];
      }
      if 0 < i < n {
        assert prefix[i - 1] == moves[i - 1];
      }
    }
  }

  /** `min_x` and `min_y` lie at or below every corner. */
  predicate BelowAll(o: Outline) {
    forall i :: 0 <= i < |o.corners| ==> o.minX <= o.corners[i].position.x && o.minY <= o.corners[i].position.y
  }

  lemma {:induction false} TraceBelow(first: Direction, moves: seq<Move>)
    ensures BelowAll(Trace(first, moves))
  {
    if |moves| > 0 {
      var prefix := moves[..|moves| - 1];
      TraceBelow(first, prefix);
      var p := Trace(first, prefix);
      var o := Trace(first, moves);
      var n := |moves| - 1;
      assert o.corners == p.corners + [o.corners[n]];
      assert o.corners[n].position == p.position;
      assert o.minX <= p.minX && o.minX <= p.position.x;
      assert o.minY <= p.minY && o.minY <= p.position.y;
      forall i | 0 <= i < |o.corners|
        ensures o.minX <= o.corners[i].position.x && o.minY <= o.corners[i].position.y
      {
        if i < n {
          assert o.corners[i] == p.corners[i];
          assert p.minX <= p.corners[i].position.x && p.minY <= p.corners[i].position.y;
        }
      }
    }
  }

  /** `min_x` and `min_y` are each `isize::MAX` or some corner's coordinate. */
  lemma {:induction false} TraceReached(first: Direction, moves: seq<Move>)
    ensures MinsReached(Trace(first, moves))
  {
    if |moves| > 0 {
      TraceReached(first, moves[..|moves| - 1]);
      TurnReached(Trace(first, moves[..|moves| - 1]), moves[|moves| - 1]);
    }
  }

  /** Each smallest coordinate is still `isize::MAX` or that of some corner. */
  predicate MinsReached(o: Outline) {
    (o.minX == ISIZE_MAX || exists i :: 0 <= i < |o.corners| && o.minX == o.corners[i].position.x) &&
    (o.minY == ISIZE_MAX || exists i :: 0 <= i < |o.corners| && o.minY == o.corners[i].position.y)
  }

  /** A turn records the corner it leaves, so a smallest coordinate it takes is a corner's. */
  lemma TurnReached(o: Outline, m: Move)
    requires MinsReached(o)
    ensures MinsReached(Turn(o, m))
  {
    var t := Turn(o, m);
    var n := |o.corners|;
    assert t.corners[n].position == o.position;
    if t.minX != ISIZE_MAX && t.minX != o.position.x {
      var i :| 0 <= i < n && o.minX == o.corners[i].position.x;
      assert t.corners[i] == o.corners[i];
    }
    if t.minY != ISIZE_MAX && t.minY != o.position.y {
      var i :| 0 <= i < n && o.minY == o.corners[i].position.y;
      assert t.corners[i] == o.corners[i];
    }
  }

  /** `BigLagoon::from_str` on the plan's lines. */
  function Outlined(lines: seq<string>): Result<Outline> {
    match LastDirection(lines)
    case Panic(why) => Panic(why)
    case Ok(first) => (
      match MapResults(ParseMove, lines)
      case Panic(why) => Panic(why)
      case Ok(moves) => Ok(Trace(first, moves)))
  }

  // Measuring one row

  const WORD: nat := 0x1_0000_0000_0000_0000

  /** The `as usize` cast of an `isize`: a negative value wraps around. */
  function AsUsize(v: int): (r: nat)
    ensures r < WORD
    ensures 0 <= v < WORD ==> r == v
  {
    v % WORD
  }

  predicate InIsize(xs: seq<int>) {
    forall i :: 0 <= i < |xs| ==> ISIZE_MIN <= xs[i] <= ISIZE_MAX
  }

  /** The state of `get_cornerless_line_area` between vertical lines. */
  datatype Tally = Tally(area: nat, x: int, inside: bool)

  function CornerlessTally(minX: int, lines: seq<int>): (r: Tally)
    ensures r.x == if |lines| == 0 then minX - 1 else lines[|lines| - 1]
    ensures r.inside == (|lines| % 2 == 1)
  {
    if |lines| == 0 then Tally(0, minX - 1, false)
    else
      var t := CornerlessTally(minX, lines[..|lines| - 1]);
      var newX := lines[|lines| - 1];
      Tally(t.area + (if t.inside then AsUsize(newX - t.x - 1) else 0) + 1, newX, !t.inside)
  }

  /**
   * `BigLagoon::get_cornerless_line_area`: the cells of a row that meets
   * only vertical lines, each line counted and the gap after every
   * odd-numbered line filled.
   */
  function Cornerless(minX: int, lines: seq<int>): nat {
    CornerlessTally(minX, lines).area
  }

  /** The widths of the spans between the first and second line, the third and fourth, and so on. */
  function PairSum(lines: seq<int>): int
    requires |lines| % 2 == 0
  {
    if |lines| == 0 then 0
    else PairSum(lines[..|lines| - 2]) + (lines[|lines| - 1] - lines[|lines| - 2] + 1)
  }

  /** Each pair of lines is ordered: the `2i`-th lies west of the `2i+1`-th. */
  predicate PairsOrdered(lines: seq<int>) {
    forall i :: 0 <= i < |lines| - 1 && i % 2 == 0 ==> lines[i] < lines[i + 1]
  }

  lemma {:induction false} CornerlessTallyPairs(minX: int, lines: seq<int>)
    requires PairsOrdered(lines) && InIsize(lines)
    ensures |lines| % 2 == 0 ==> CornerlessTally(minX, lines).area == PairSum(lines)
    ensures |lines| % 2 == 1 ==> CornerlessTally(minX, lines).area == PairSum(lines[..|lines| - 1]) + 1
  {
    var n := |lines|;
    if n > 0 {
      var prefix := lines[..n - 1];
      assert forall i :: 0 <= i < n - 1 ==> prefix[i] == lines[i];
      CornerlessTallyPairs(minX, prefix);
      if n % 2 == 0 {
        assert prefix[..n - 2] == lines[..n - 2];
        assert lines[n - 2] < lines[n - 1];
      }
    }
  }

  /**
   * A row of vertical lines paired up west to east is filled from each
   * line to its partner: the sum of `x[2i+1] - x[2i] + 1`.
   */
  lemma CornerlessPairs(minX: int, lines: seq<int>)
    requires |lines| % 2 == 0 && PairsOrdered(lines) && InIsize(lines)
    ensures Cornerless(minX, lines) == PairSum(lines)
  {
    CornerlessTallyPairs(minX, lines);
  }

  /** `Itertools::merge`: two sequences merged, the first one's item taken on a tie. */
  function Merge(a: seq<int>, b: seq<int>): seq<int>
    decreases |a| + |b|
  {
    if |a| == 0 then b
    else if |b| == 0 then a
    else if a[0] <= b[0] then [a[0]] + Merge(a[1..], b)
    else [b[0]] + Merge(a, b[1..])
  }

  predicate Sorted(xs: seq<int>) {
    forall i, j :: 0 <= i < j < |xs| ==> xs[i] <= xs[j]
  }

  /** Merging keeps every item. */
  lemma {:induction false} MergeMultiset(a: seq<int>, b: seq<int>)
    ensures multiset(Merge(a, b)) == multiset(a) + multiset(b)
    decreases |a| + |b|
  {
    if |a| > 0 && |b| > 0 {
      if a[0] <= b[0] {
        MergeMultiset(a[1..], b);
        assert Merge(a, b) == [a[0]] + Merge(a[1..], b);
        assert a == [a[0]] + a[1..];
        assert multiset(a) == multiset{a[0]} + multiset(a[1..]);
      } else {
        MergeMultiset(a, b[1..]);
        assert Merge(a, b) == [b[0]] + Merge(a, b[1..]);
        assert b == [b[0]] + b[1..];
        assert multiset(b) == multiset{b[0]} + multiset(b[1..]);
      }
    }
  }

  /** Merging two sorted sequences gives a sorted sequence. */
  lemma {:induction false} MergeSorted(a: seq<int>, b: seq<int>)
    requires Sorted(a) && Sorted(b)
    ensures Sorted(Merge(a, b))
    decreases |a| + |b|
  {
    if |a| > 0 && |b| > 0 {
      if a[0] <= b[0] {
        MergeSorted(a[1..], b);
        var rest := Merge(a[1..], b);
        assert |a| > 1 ==> a[0] <= a[1];
        assert rest[0] == (if |a| > 1 && a[1] <= b[0] then a[1] else b[0]);
        SortedCons(a[0], rest);
      } else {
        MergeSorted(a, b[1..]);
        var rest := Merge(a, b[1..]);
        assert |b| > 1 ==> b[0] <= b[1];
        assert rest[0] == (if |b| == 1 || a[0] <= b[1] then a[0] else b[1]);
        SortedCons(b[0], rest);
      }
    }
  }

  /** An item no larger than the first of a sorted sequence can go in front of it. */
  lemma SortedCons(h: int, s: seq<int>)
    requires Sorted(s) && (|s| > 0 ==> h <= s[0])
    ensures Sorted([h] + s)
  {
  }

  /** The x coordinates of corners. */
  function Xs(corners: seq<CornerPosition>): (xs: seq<int>)
    ensures |xs| == |corners|
    ensures forall i :: 0 <= i < |corners| ==> xs[i] == corners[i].position.x
  {
    seq(|corners|, i requires 0 <= i < |corners| => corners[i].position.x)
  }

  /**
   * `binary_search_by` on the x coordinate: the index of a corner at `x`,
   * if there is one.
   */
  function FindCorner(corners: seq<CornerPosition>, x: int): (r: Option<nat>)
    ensures r.Some? ==> r.value < |corners| && corners[r.value].position.x == x
    ensures r.None? ==> forall i :: 0 <= i < |corners| ==> corners[i].position.x != x
  {
    if |corners| == 0 then None
    else if corners[0].position.x == x then Some(0)
    else match FindCorner(corners[1..], x)
      case None => None
      case Some(i) => Some(i + 1)
  }

  /** The state of `get_line_area` between bounds. */
  datatype Scan = Scan(area: nat, x: int, inside: bool, last: Option<Corner>, seen: set<int>)

  /**
   * One bound of `get_line_area`: a bound seen before is skipped; otherwise
   * the gap since the previous bound is counted when inside or between two
   * corners (a negative gap panics), then the bound itself; a lone vertical
   * line flips inside and outside, the second of two corners flips it
   * unless the two can be passed by together.
   */
  function ScanStep(corners: seq<CornerPosition>, s: Scan, newX: int): (r: Result<Scan>)
    ensures r.Ok? && newX !in s.seen ==> r.value.x == newX && r.value.seen == s.seen + {newX}
    ensures r.Ok? && newX in s.seen ==> r == Ok(s)
  {
    if newX in s.seen then Ok(s)
    else if (s.inside || s.last.Some?) && newX - s.x - 1 < 0 then Panic("uh oh: TryFromIntError(())")
    else
      var area := s.area + (if s.inside || s.last.Some? then newX - s.x - 1 else 0) + 1;
      match FindCorner(corners, newX)
      case None => Ok(Scan(area, newX, !s.inside, s.last, s.seen + {newX}))
      case Some(i) =>
        if s.last.Some? then
          Ok(Scan(area, newX, if IsBypassableWith(s.last.value, corners[i].corner) then s.inside else !s.inside, None, s.seen + {newX}))
        else Ok(Scan(area, newX, s.inside, Some(corners[i].corner), s.seen + {newX}))
  }

  function LineScan(minX: int, corners: seq<CornerPosition>, bounds: seq<int>): Result<Scan> {
    if |bounds| == 0 then Ok(Scan(0, minX - 1, false, None, {}))
    else match LineScan(minX, corners, bounds[..|bounds| - 1])
      case Panic(why) => Panic(why)
      case Ok(s) => ScanStep(corners, s, bounds[|bounds| - 1])
  }

  lemma {:induction false} LineScanPanic(minX: int, corners: seq<CornerPosition>, bounds: seq<int>, k: nat)
    requires k <= |bounds| && LineScan(minX, corners, bounds[..k]).Panic?
    ensures LineScan(minX, corners, bounds) == LineScan(minX, corners, bounds[..k])
    decreases |bounds| - k
  {
    if k < |bounds| {
      assert bounds[..k + 1][..k] == bounds[..k];
      LineScanPanic(minX, corners, bounds, k + 1);
    } else {
      assert bounds[..k] == bounds;
    }
  }

  /**
   * `BigLagoon::get_line_area`: the cells of a row holding the corners
   * `corners`, scanned over their x coordinates merged with the vertical
   * lines.
   */
  function LineArea(minX: int, lines: seq<int>, corners: seq<CornerPosition>): Result<nat> {
    match LineScan(minX, corners, Merge(Xs(corners), lines))
    case Panic(why) => Panic(why)
    case Ok(s) => Ok(s.area)
  }

  predicate StrictlySorted(xs: seq<int>) {
    forall i, j :: 0 <= i < j < |xs| ==> xs[i] < xs[j]
  }

  lemma {:induction false} LineScanCornerless(minX: int, lines: seq<int>)
    requires StrictlySorted(lines) && InIsize(lines)
    ensures LineScan(minX, [], lines).Ok?
    ensures var s := LineScan(minX, [], lines).value; var t := CornerlessTally(minX, lines);
      s.area == t.area && s.x == t.x && s.inside == t.inside && s.last.None? &&
      forall v :: v in s.seen ==> v <= s.x && |lines| > 0
  {
    if |lines| > 0 {
      var prefix := lines[..|lines| - 1];
      assert forall i :: 0 <= i < |prefix| ==> prefix[i] == lines[i];
      LineScanCornerless(minX, prefix);
    }
  }

  /**
   * A row without corners whose vertical lines are all distinct is measured
   * alike by `get_line_area` and `get_cornerless_line_area`.
   */
  lemma LineAreaWithoutCorners(minX: int, lines: seq<int>)
    requires StrictlySorted(lines) && InIsize(lines)
    ensures LineArea(minX, lines, []) == Ok(Cornerless(minX, lines))
  {
    assert Merge(Xs([]), lines) == lines;
    LineScanCornerless(minX, lines);
  }

  // Measuring the lagoon

  /** `iter().position(..)`: the first index holding `x`. */
  function FirstIndex(xs: seq<int>, x: int): (r: Option<nat>)
    ensures r.None? <==> x !in xs
    ensures r.Some? ==> r.value < |xs| && xs[r.value] == x && x !in xs[..r.value]
  {
    if |xs| == 0 then None
    else if xs[0] == x then Some(0)
    else match FirstIndex(xs[1..], x)
      case None => None
      case Some(i) => assert xs[1..][..i] == xs[1..i + 1]; Some(i + 1)
  }

  /** The first index whose item is at least `x`, or the length. */
  function LowerBound(xs: seq<int>, x: int): (p: nat)
    ensures p <= |xs|
    ensures forall i :: 0 <= i < p ==> xs[i] < x
    ensures p < |xs| ==> xs[p] >= x
  {
    if |xs| == 0 || xs[0] >= x then 0
    else LowerBound(xs[1..], x) + 1
  }

  /**
   * `binary_search` then `insert`: `x` placed among sorted lines. Any index
   * the search may return among equal items gives this same sequence.
   */
  function InsertSorted(xs: seq<int>, x: int): (r: seq<int>)
    ensures multiset(r) == multiset(xs) + multiset{x}
    ensures Sorted(xs) ==> Sorted(r)
  {
    var p := LowerBound(xs, x);
    assert xs == xs[..p] + xs[p..];
    InsertAtSorted(xs, x, p);
    xs[..p] + [x] + xs[p..]
  }

  /** Placing `x` after the items below it and before the rest keeps a sorted sequence sorted. */
  lemma InsertAtSorted(xs: seq<int>, x: int, p: nat)
    requires p <= |xs|
    requires forall i :: 0 <= i < p ==> xs[i] < x
    requires p < |xs| ==> xs[p] >= x
    ensures Sorted(xs) ==> Sorted(xs[..p] + [x] + xs[p..])
  {
    if !Sorted(xs) {
      return;
    }
    var r := xs[..p] + [x] + xs[p..];
    assert forall j :: 0 <= j < |r| ==> r[j] == if j < p then xs[j] else if j == p then x else xs[j - 1];
    forall i, j | 0 <= i < j < |r|
      ensures r[i] <= r[j]
    {
      if i < p && j > p {
        assert xs[i] <= xs[j - 1];
      } else if i == p && j > p {
        assert xs[p] <= xs[j - 1];
      }
    }
  }

  lemma RemoveSorted(xs: seq<int>, i: nat)
    requires i < |xs| && Sorted(xs)
    ensures Sorted(Remove(xs, i))
  {
    var r := Remove(xs, i);
    assert forall j :: 0 <= j < |r| ==> r[j] == if j < i then xs[j] else xs[j + 1];
  }

  /** The state of `get_area` between corners. */
  datatype Level = Level(y: int, lines: seq<int>, seen: seq<CornerPosition>, area: nat)

  /**
   * Reaching a corner on a new row: the finished row is measured, and the
   * rows strictly between it and the new one are each as wide as the
   * vertical lines make them.
   */
  function NextRow(minX: int, level: Level, newY: int): Result<Level> {
    if newY == level.y then Ok(level)
    else match LineArea(minX, level.lines, level.seen)
      case Panic(why) => Panic(why)
      case Ok(lineArea) =>
        Ok(Level(newY, level.lines, [], level.area + lineArea + Cornerless(minX, level.lines) * AsUsize(newY - level.y - 1)))
  }

  /**
   * One corner of `BigLagoon::get_area`: a corner facing North ends the
   * vertical line at its x (panicking when there is none), one facing South
   * starts one; either way the corner joins the row's corners.
   */
  function Absorb(minX: int, level: Level, c: CornerPosition): (r: Result<Level>)
    ensures r.Ok? ==> r.value.y == c.position.y && r.value.seen == (if c.position.y == level.y then level.seen else []) + [c]
    ensures r.Ok? && Sorted(level.lines) ==> Sorted(r.value.lines)
  {
    match NextRow(minX, level, c.position.y)
    case Panic(why) => Panic(why)
    case Ok(l) => Place(l, c)
  }

  /** The vertical lines and the row's corners after the corner `c`. */
  function Place(l: Level, c: CornerPosition): (r: Result<Level>)
    ensures r.Ok? ==> r.value.y == l.y && r.value.seen == l.seen + [c] && r.value.area == l.area
    ensures r.Ok? && Sorted(l.lines) ==> Sorted(r.value.lines)
  {
    if Faces(c.corner, North) then
      match FirstIndex(l.lines, c.position.x)
      case None => Panic("called `Option::unwrap()` on a `None` value")
      case Some(i) =>
        if Sorted(l.lines) then RemoveSorted(l.lines, i); Ok(l.(lines := Remove(l.lines, i), seen := l.seen + [c]))
        else Ok(l.(lines := Remove(l.lines, i), seen := l.seen + [c]))
    else if Faces(c.corner, South) then Ok(l.(lines := InsertSorted(l.lines, c.position.x), seen := l.seen + [c]))
    else Ok(l.(seen := l.seen + [c]))
  }

  /** The corners absorbed in turn, starting on row `minY` with no lines. */
  function Levels(minX: int, minY: int, corners: seq<CornerPosition>): (r: Result<Level>)
    ensures r.Ok? ==> Sorted(r.value.lines)
    ensures r.Ok? ==> r.value.y == if |corners| == 0 then minY else corners[|corners| - 1].position.y
  {
    if |corners| == 0 then Ok(Level(minY, [], [], 0))
    else match Levels(minX, minY, corners[..|corners| - 1])
      case Panic(why) => Panic(why)
      case Ok(l) => Absorb(minX, l, corners[|corners| - 1])
  }

  lemma {:induction false} LevelsPanic(minX: int, minY: int, corners: seq<CornerPosition>, k: nat)
    requires k <= |corners| && Levels(minX, minY, corners[..k]).Panic?
    ensures Levels(minX, minY, corners) == Levels(minX, minY, corners[..k])
    decreases |corners| - k
  {
    if k < |corners| {
      assert corners[..k + 1][..k] == corners[..k];
      LevelsPanic(minX, minY, corners, k + 1);
    } else {
      assert corners[..k] == corners;
    }
  }

  lemma LevelsNext(minX: int, minY: int, corners: seq<CornerPosition>, c: CornerPosition, level: Level)
    requires Levels(minX, minY, corners) == Ok(level)
    ensures Levels(minX, minY, corners + [c]) == Absorb(minX, level, c)
  {
    assert (corners + [c])[..|corners|] == corners;
  }

  lemma LevelsPanicPrefix(minX: int, minY: int, corners: seq<CornerPosition>, rest: seq<CornerPosition>)
    requires Levels(minX, minY, corners).Panic?
    ensures Levels(minX, minY, corners + rest) == Levels(minX, minY, corners)
  {
    assert (corners + rest)[..|corners|] == corners;
    LevelsPanic(minX, minY, corners + rest, |corners|);
  }

  /** The last row of `get_area`: its cells added to the area so far. */
  function AreaAfter(minX: int, l: Level): Result<nat> {
    match LineArea(minX, l.lines, l.seen)
    case Panic(why) => Panic(why)
    case Ok(lineArea) => Ok(l.area + lineArea)
  }

  /** `BigLagoon::get_area` on corners in the order they are popped: every level, then the last row. */
  function AreaOf(minX: int, minY: int, corners: seq<CornerPosition>): Result<nat> {
    match Levels(minX, minY, corners)
    case Panic(why) => Panic(why)
    case Ok(l) => AreaAfter(minX, l)
  }

  /**
   * When the corners come in reading order from row `minY` on, a new row
   * lies below the previous one, so the row count between them is exact
   * and never wraps.
   */
  lemma RowGapExact(minX: int, minY: int, corners: seq<CornerPosition>, k: nat)
    requires InReadingOrder(corners) && k < |corners|
    requires forall i :: 0 <= i < |corners| ==> minY <= corners[i].position.y <= ISIZE_MAX
    requires ISIZE_MIN <= minY
    requires Levels(minX, minY, corners[..k]).Ok?
    ensures var y := Levels(minX, minY, corners[..k]).value.y;
      corners[k].position.y != y ==> AsUsize(corners[k].position.y - y - 1) == corners[k].position.y - y - 1
  {
    if k > 0 {
      assert corners[..k][k - 1] == corners[k - 1];
      assert !Before(corners[k].position, corners[k - 1].position);
    }
  }

  lemma Regroup<T>(a: seq<T>, b: seq<T>, c: seq<T>)
    ensures a + (b + c) == (a + b) + c
  {
  }

  /** The lagoon of part 2: the heap of corners and the outline's minima. */
  class BigLagoon {
    var corners: seq<CornerPosition>
    var minX: int
    var minY: int

    constructor (o: Outline)
      ensures corners == o.corners && minX == o.minX && minY == o.minY
    {
      corners := o.corners;
      minX := o.minX;
      minY := o.minY;
    }

    /** `BigLagoon::from_str`: the last line's heading first, then one corner per line. */
    static method FromStr(contents: string) returns (r: Result<BigLagoon>)
      ensures r.Panic? ==> Outlined(Lines(contents)) == Panic(r.reason)
      ensures r.Ok? ==> fresh(r.value) && Outlined(Lines(contents)).Ok?
      ensures r.Ok? ==> var o := Outlined(Lines(contents)).value;
        r.value.corners == o.corners && r.value.minX == o.minX && r.value.minY == o.minY
    {
      var lines := Lines(contents);
      var first := LastDirection(lines);
      if first.Panic? {
        return Panic(first.reason);
      }
      var o := Outline([], Coord(0, 0), ISIZE_MAX, ISIZE_MAX, first.value);
      ghost var moves: seq<Move> := [];
      for i := 0 to |lines|
        invariant MapResults(ParseMove, lines[..i]) == Ok(moves) && o == Trace(first.value, moves)
      {
        var m := ParseMove(lines[i]);
        if m.Panic? {
          MapResultsPanic(ParseMove, lines, i);
          return Panic(m.reason);
        }
        MapResultsStep(ParseMove, lines, i, moves, m.value);
        o := Outline(o.corners + [CornerPosition(FromDirections(o.last, m.value.direction), o.position)],
                     Shifted(o.position, m.value.direction, m.value.steps),
                     Min(o.position.x, o.minX), Min(o.position.y, o.minY), m.value.direction);
        moves := moves + [m.value];
        assert moves[..|moves| - 1] == moves[..i];
      }
      assert lines[..|lines|] == lines;
      var lagoon := new BigLagoon(o);
      return Ok(lagoon);
    }

    /** `BigLagoon::get_cornerless_line_area`. */
    method CornerlessLineArea(lines: seq<int>) returns (area: nat)
      ensures area == Cornerless(minX, lines)
    {
      area := 0;
      var x := minX - 1;
      var inside := false;
      for i := 0 to |lines|
        invariant CornerlessTally(minX, lines[..i]) == Tally(area, x, inside)
      {
        assert lines[..i + 1][..i] == lines[..i];
        if inside {
          area := area + AsUsize(lines[i] - x - 1);
        }
        area := area + 1;
        inside := !inside;
        x := lines[i];
      }
      assert lines[..|lines|] == lines;
    }

    /** `BigLagoon::get_line_area`. */
    method LineAreaOf(lines: seq<int>, seen: seq<CornerPosition>) returns (r: Result<nat>)
      ensures r == LineArea(minX, lines, seen)
    {
      var bounds := Merge(Xs(seen), lines);
      var s := Scan(0, minX - 1, false, None, {});
      for i := 0 to |bounds|
        invariant LineScan(minX, seen, bounds[..i]) == Ok(s)
      {
        assert bounds[..i + 1][..i] == bounds[..i];
        var next := ScanBound(seen, s, bounds[i]);
        if next.Panic? {
          LineScanPanic(minX, seen, bounds, i + 1);
          return Panic(next.reason);
        }
        s := next.value;
      }
      assert bounds[..|bounds|] == bounds;
      return Ok(s.area);
    }

    /** One bound of the loop of `get_line_area`. */
    static method ScanBound(seen: seq<CornerPosition>, s: Scan, newX: int) returns (r: Result<Scan>)
      ensures r == ScanStep(seen, s, newX)
    {
      if newX in s.seen {
        return Ok(s);
      }
      var area := s.area;
      if s.inside || s.last.Some? {
        if newX - s.x - 1 < 0 {
          return Panic("uh oh: TryFromIntError(())");
        }
        area := area + (newX - s.x - 1);
      }
      area := area + 1;
      var inside := s.inside;
      var last := s.last;
      var index := FindCorner(seen, newX);
      if index.Some? {
        if last.Some? {
          if !IsBypassableWith(last.value, seen[index.value].corner) {
            inside := !inside;
          }
          last := None;
        } else {
          last := Some(seen[index.value].corner);
        }
      } else {
        inside := !inside;
      }
      return Ok(Scan(area, newX, inside, last, s.seen + {newX}));
    }

    /**
     * `BigLagoon::get_area`: corners popped in reading order until the heap
     * is empty, then the last row measured.
     */
    method GetArea() returns (r: Result<nat>)
      modifies this
      ensures corners == [] && minX == old(minX) && minY == old(minY)
      ensures r == AreaOf(minX, minY, Drain(old(corners)))
    {
      ghost var all := Drain(corners);
      ghost var popped: seq<CornerPosition> := [];
      var level := Level(minY, [], [], 0);
      while |corners| > 0
        invariant minX == old(minX) && minY == old(minY)
        invariant all == popped + Drain(corners)
        invariant Levels(minX, minY, popped) == Ok(level)
        decreases |corners|
      {
        ghost var rest := Drain(corners);
        var c := Pop();
        ghost var after := Drain(corners);
        Regroup(popped, [c], after);
        var next := AbsorbCorner(level, c);
        LevelsNext(minX, minY, popped, c, level);
        popped := popped + [c];
        if next.Panic? {
          LevelsPanicPrefix(minX, minY, popped, Drain(corners));
          corners := [];
          return Panic(next.reason);
        }
        level := next.value;
      }
      assert popped == all;
      r := LastRow(level);
    }

    /** The end of `get_area`: the last row measured and added. */
    method LastRow(level: Level) returns (r: Result<nat>)
      ensures r == AreaAfter(minX, level)
    {
      var lineArea := LineAreaOf(level.lines, level.seen);
      if lineArea.Panic? {
        return Panic(lineArea.reason);
      }
      return Ok(level.area + lineArea.value);
    }

    /** `BinaryHeap::pop`: the heap loses the corner it hands out first. */
    method Pop() returns (c: CornerPosition)
      requires |corners| > 0
      modifies this
      ensures Drain(old(corners)) == [c] + Drain(corners) && |corners| == |old(corners)| - 1
      ensures minX == old(minX) && minY == old(minY)
    {
      var i := Top(corners);
      c := corners[i];
      corners := Remove(corners, i);
    }

    /** One corner of the loop of `get_area`. */
    method AbsorbCorner(level: Level, c: CornerPosition) returns (r: Result<Level>)
      ensures r == Absorb(minX, level, c)
    {
      var l := StartRow(level, c.position.y);
      if l.Panic? {
        return Panic(l.reason);
      }
      return Place(l.value, c);
    }

    /** The row change inside the loop of `get_area`. */
    method StartRow(level: Level, newY: int) returns (r: Result<Level>)
      ensures r == NextRow(minX, level, newY)
    {
      if newY == level.y {
        return Ok(level);
      }
      var lineArea := LineAreaOf(level.lines, level.seen);
      if lineArea.Panic? {
        return Panic(lineArea.reason);
      }
      var cornerless := CornerlessLineArea(level.lines);
      return Ok(Level(newY, level.lines, [], level.area + lineArea.value + cornerless * AsUsize(newY - level.y - 1)));
    }
  }

  /** The answer of part 2: the area of the outline read from the colour codes. */
  function Part2Of(contents: string): Result<nat> {
    match Outlined(Lines(contents))
    case Panic(why) => Panic(why)
    case Ok(o) => AreaOf(o.minX, o.minY, Drain(o.corners))
  }

  /** `part2`. */
  method Part2(contents: string) returns (r: Result<nat>)
    ensures r == Part2Of(contents)
  {
    var lagoon := BigLagoon.FromStr(contents);
    if lagoon.Panic? {
      return Panic(lagoon.reason);
    }
    r := lagoon.value.GetArea();
  }
}
