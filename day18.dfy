/**
 * Day 18, part 1: a dig plan of "direction steps (#rrggbb)" lines traces a
 * trench; every trench cell remembers the colour of the line that dug it
 * last, and the lagoon is then dug out row by row by counting the walls
 * crossed.  The answer is the number of dug cells.
 *
 * Coordinates and directions are shared with part 2 (module Day18Big).
 */
module Day18 {
  import opened Text

  /** A cell of the dig plan; `y` grows southward and `x` eastward. */
  datatype Coord = Coord(y: int, x: int)

  datatype Direction = North | West | South | East

  /** `Coord::shift_direction`: one step in place. */
  function Step(c: Coord, d: Direction): Coord {
    match d
    case North => c.(y := c.y - 1)
    case West => c.(x := c.x - 1)
    case South => c.(y := c.y + 1)
    case East => c.(x := c.x + 1)
  }

  /** `n` single steps in the same direction. */
  function Walk(c: Coord, d: Direction, n: nat): Coord {
    if n == 0 then c else Step(Walk(c, d, n - 1), d)
  }

  /** `Coord::neighbor`: the adjacent cell, computed on its own. */
  function Neighbor(c: Coord, d: Direction): (r: Coord)
    ensures r == Step(c, d) && r == Walk(c, d, 1)
  {
    match d
    case North => Coord(c.y - 1, c.x)
    case West => Coord(c.y, c.x - 1)
    case South => Coord(c.y + 1, c.x)
    case East => Coord(c.y, c.x + 1)
  }

  /** `Coord::shifted`: `steps` cells in one move. */
  function Shifted(c: Coord, d: Direction, steps: nat): Coord {
    match d
    case North => c.(y := c.y - steps)
    case West => c.(x := c.x - steps)
    case South => c.(y := c.y + steps)
    case East => c.(x := c.x + steps)
  }

  /** Moving `steps` cells at once lands where `steps` single steps do. */
  lemma {:induction false} ShiftedWalk(c: Coord, d: Direction, steps: nat)
    ensures Shifted(c, d, steps) == Walk(c, d, steps)
  {
    if steps > 0 {
      ShiftedWalk(c, d, steps - 1);
    }
  }

  /** `Direction::is_vertical`. */
  predicate IsVertical(d: Direction) {
    d == North || d == South
  }

  /** `Direction::opposite`. */
  function Opposite(d: Direction): (r: Direction)
    ensures r != d && IsVertical(r) == IsVertical(d)
    ensures Step(Step(Coord(0, 0), d), r) == Coord(0, 0)
  {
    match d
    case North => South
    case West => East
    case South => North
    case East => West
  }

  /** `opposite` undoes itself. */
  lemma OppositeInvolution(d: Direction)
    ensures Opposite(Opposite(d)) == d
  {
  }

  /** The plan letter of each direction. */
  function Letter(d: Direction): char {
    match d
    case North => 'U'
    case West => 'L'
    case South => 'D'
    case East => 'R'
  }

  /** The hexadecimal digit part 2 reads for each direction. */
  function Digit(d: Direction): char {
    match d
    case North => '3'
    case West => '2'
    case South => '1'
    case East => '0'
  }

  /** `Direction::from(&str)`: the first character decides; anything but U, L, D, R panics. */
  function DirectionFromStr(s: string): (r: Result<Direction>)
    ensures r.Ok? <==> |s| > 0 && s[0] in "ULDR"
    ensures r.Ok? ==> Letter(r.value) == s[0]
  {
    if |s| == 0 then Panic("called `Option::unwrap()` on a `None` value")
    else match s[0]
      case 'U' => Ok(North)
      case 'L' => Ok(West)
      case 'D' => Ok(South)
      case 'R' => Ok(East)
      case _ => Panic("invalid string provided for direction")
  }

  /** `Direction::from(char)`: '3', '2', '1', '0' are North, West, South, East; anything else panics. */
  function DirectionFromChar(c: char): (r: Result<Direction>)
    ensures r.Ok? <==> c in "3210"
    ensures r.Ok? ==> Digit(r.value) == c
  {
    match c
    case '3' => Ok(North)
    case '2' => Ok(West)
    case '1' => Ok(South)
    case '0' => Ok(East)
    case _ => Panic("invalid char provided for direction")
  }

  /** Both readers give back the direction that was written. */
  lemma DirectionRoundTrip(d: Direction, rest: string)
    ensures DirectionFromStr([Letter(d)] + rest) == Ok(d)
    ensures DirectionFromChar(Digit(d)) == Ok(d)
  {
  }

  // ---------------------------------------------------------------------
  // Colours

  /** `Color`: three bytes. */
  datatype Color = Color(r: nat, g: nat, b: nat)

  /** `Color::new`: the colour given to dug-out cells. */
  const Black := Color(0, 0, 0)

  /** `u8::from_str_radix(&hex[i..i + 2], 16).unwrap()`. */
  function ByteAt(hex: string, i: nat): (r: Result<nat>)
    ensures r.Ok? <==> i + 2 <= |hex| && ParseHex(hex[i..i + 2], U8_MAX).Some?
    ensures r.Ok? ==> Some(r.value) == ParseHex(hex[i..i + 2], U8_MAX) && r.value <= U8_MAX
  {
    if |hex| < i + 2 then Panic("byte index out of range")
    else match ParseHex(hex[i..i + 2], U8_MAX)
      case None => Panic("called `Result::unwrap()` on an `Err` value: ParseIntError")
      case Some(v) => Ok(v)
  }

  /** `Color::from("#rrggbb")`: each pair after the first character is a base-16 byte. */
  function ColorFrom(hex: string): (r: Result<Color>)
    ensures r.Ok? <==> ByteAt(hex, 1).Ok? && ByteAt(hex, 3).Ok? && ByteAt(hex, 5).Ok?
    ensures r.Ok? ==> r.value == Color(ByteAt(hex, 1).value, ByteAt(hex, 3).value, ByteAt(hex, 5).value)
  {
    match ByteAt(hex, 1)
    case Panic(why) => Panic(why)
    case Ok(r) =>
      match ByteAt(hex, 3)
      case Panic(why) => Panic(why)
      case Ok(g) =>
        match ByteAt(hex, 5)
        case Panic(why) => Panic(why)
        case Ok(b) => Ok(Color(r, g, b))
  }

  /** Reading a colour written as "#rrggbb" gives back its three bytes. */
  lemma ColorRoundTrip(c: Color)
    requires c.r <= U8_MAX && c.g <= U8_MAX && c.b <= U8_MAX
    ensures ColorFrom(['#'] + Hex2(c.r) + Hex2(c.g) + Hex2(c.b)) == Ok(c)
  {
    var hex := ['#'] + Hex2(c.r) + Hex2(c.g) + Hex2(c.b);
    assert hex[1..3] == Hex2(c.r) && hex[3..5] == Hex2(c.g) && hex[5..7] == Hex2(c.b);
    ParseHex2(c.r);
    ParseHex2(c.g);
    ParseHex2(c.b);
  }

  // ---------------------------------------------------------------------
  // The trench

  /** One line of the dig plan. */
  datatype Instruction = Instruction(direction: Direction, steps: nat, color: Color)

  /** A line "D 6 (#70c710)": direction, steps, and the colour between the parentheses. */
  function ParseInstruction(line: string): Result<Instruction> {
    var tokens := Split(line, ' ');
    match DirectionFromStr(tokens[0])
    case Panic(why) => Panic(why)
    case Ok(direction) =>
      if |tokens| < 2 then Panic("called `Option::unwrap()` on a `None` value")
      else match ParseUsize(tokens[1])
        case None => Panic("called `Result::unwrap()` on an `Err` value: ParseIntError")
        case Some(steps) =>
          if |tokens| < 3 then Panic("called `Option::unwrap()` on a `None` value")
          else if |tokens[2]| < 8 then Panic("byte index 8 is out of range")
          else match ColorFrom(tokens[2][1..8])
            case Panic(why) => Panic(why)
            case Ok(color) => Ok(Instruction(direction, steps, color))
  }

  /** The walls after `n` of the steps from `c` towards `d`, each cell coloured `color`. */
  function Paint(walls: map<Coord, Color>, c: Coord, d: Direction, n: nat, color: Color): map<Coord, Color> {
    if n == 0 then walls else Paint(walls, c, d, n - 1, color)[Walk(c, d, n) := color]
  }

  /** The cells a line passes, its start excluded. */
  predicate OnLine(c: Coord, d: Direction, n: nat, q: Coord) {
    exists j :: 1 <= j <= n && q == Walk(c, d, j)
  }

  /** A line paints exactly the cells it passes, in its colour, and leaves every other cell alone. */
  lemma {:induction false} PaintCells(walls: map<Coord, Color>, c: Coord, d: Direction, n: nat, color: Color)
    ensures forall q :: q in Paint(walls, c, d, n, color) <==> q in walls || OnLine(c, d, n, q)
    ensures forall q :: q in Paint(walls, c, d, n, color) ==>
      Paint(walls, c, d, n, color)[q] == if OnLine(c, d, n, q) then color else walls[q]
  {
    if n > 0 {
      PaintCells(walls, c, d, n - 1, color);
      forall q ensures OnLine(c, d, n, q) <==> OnLine(c, d, n - 1, q) || q == Walk(c, d, n) {
        if OnLine(c, d, n, q) && q != Walk(c, d, n) {
          var j :| 1 <= j <= n && q == Walk(c, d, j);
          assert j < n;
        }
      }
    }
  }

  /**
   * The state `Lagoon::from_str` builds up: the wall colours, the direction
   * of each colour's line, the current cell and the extremes of the line ends.
   */
  datatype Digger = Digger(walls: map<Coord, Color>, directions: map<Color, Direction>, position: Coord,
                           minX: int, maxX: int, minY: int, maxY: int)

  /** Every wall's colour names a line direction. */
  predicate ValidWalls(walls: map<Coord, Color>, directions: map<Color, Direction>) {
    forall c :: c in walls ==> walls[c] in directions
  }

  function Min(a: int, b: int): int {
    if a < b then a else b
  }

  function Max(a: int, b: int): int {
    if a < b then b else a
  }

  /** One line of the plan: its colour's direction is recorded and its cells painted. */
  function DigLine(s: Digger, ins: Instruction): Digger {
    var end := Walk(s.position, ins.direction, ins.steps);
    Digger(Paint(s.walls, s.position, ins.direction, ins.steps, ins.color),
           s.directions[ins.color := ins.direction], end,
           Min(end.x, s.minX), Max(end.x, s.maxX), Min(end.y, s.minY), Max(end.y, s.maxY))
  }

  /** The digger before the first line: at the origin, with the extremes at their sentinels. */
  const Start := Digger(map[], map[], Coord(0, 0), ISIZE_MAX, ISIZE_MIN, ISIZE_MAX, ISIZE_MIN)

  /** The instructions dug in order from the start. */
  function Plan(instructions: seq<Instruction>): (r: Digger)
    ensures ValidWalls(r.walls, r.directions)
  {
    if |instructions| == 0 then Start
    else
      var s := Plan(instructions[..|instructions| - 1]);
      var ins := instructions[|instructions| - 1];
      PaintCells(s.walls, s.position, ins.direction, ins.steps, ins.color);
      DigLine(s, ins)
  }

  /**
   * The trench of a dig plan: the lines read and dug in order.  Digging
   * cannot fail, so the first line that fails to parse decides the panic.
   */
  function Trench(lines: seq<string>): Result<Digger> {
    match MapResults(ParseInstruction, lines)
    case Panic(why) => Panic(why)
    case Ok(instructions) => Ok(Plan(instructions))
  }

  // ---------------------------------------------------------------------
  // Digging out the inside

  /** `Lagoon::get_direction`: the direction of the cell's colour, a vacant cell counting as `Color::new()`. */
  function DirectionAt(walls: map<Coord, Color>, directions: map<Color, Direction>, c: Coord): Option<Direction> {
    var color := if c in walls then walls[c] else Black;
    if color in directions then Some(directions[color]) else None
  }

  /**
   * `Lagoon::find_vertical_join`: a wall dug north or south answers its own
   * direction; a horizontal wall answers South when the cell above was dug
   * northward, else North when the cell below was dug southward, else nothing.
   */
  function VerticalJoin(walls: map<Coord, Color>, directions: map<Color, Direction>, c: Coord): (r: Option<Direction>)
    requires DirectionAt(walls, directions, c).Some?
    ensures r.Some? ==> IsVertical(r.value)
    ensures IsVertical(DirectionAt(walls, directions, c).value) ==> r == DirectionAt(walls, directions, c)
    ensures r == Some(South) && !IsVertical(DirectionAt(walls, directions, c).value) ==>
      DirectionAt(walls, directions, Neighbor(c, North)) == Some(North)
  {
    if IsVertical(DirectionAt(walls, directions, c).value) then DirectionAt(walls, directions, c)
    else if DirectionAt(walls, directions, Neighbor(c, North)) == Some(North) then Some(South)
    else if DirectionAt(walls, directions, Neighbor(c, South)) == Some(South) then Some(North)
    else None
  }

  /** The counters of a row's scan: `walls_passed` and `last_vertical_join`. */
  datatype Crossing = Crossing(passed: nat, last: Option<Direction>)

  /** The cell is vacant, or a wall whose colour names a direction. */
  predicate Scannable(walls: map<Coord, Color>, directions: map<Color, Direction>, c: Coord) {
    c in walls ==> walls[c] in directions
  }

  /**
   * The counters after one more cell: a vacant cell closes a pending join
   * as a crossing; a wall with a vertical join either opens a join or closes
   * one, counting a crossing when the two joins point different ways.
   */
  function CrossStep(walls: map<Coord, Color>, directions: map<Color, Direction>, c: Coord, s: Crossing): Crossing
    requires Scannable(walls, directions, c)
  {
    if c !in walls then Crossing(if s.last.Some? then s.passed + 1 else s.passed, None)
    else
      var join := VerticalJoin(walls, directions, c);
      if join.None? then s
      else if s.last.Some? then Crossing(if s.last != join then s.passed + 1 else s.passed, None)
      else Crossing(s.passed, join)
  }

  /** The walls of row `y` name directions. */
  predicate RowValid(walls: map<Coord, Color>, directions: map<Color, Direction>, y: int) {
    forall c :: c in walls && c.y == y ==> walls[c] in directions
  }

  /** The counters before each of the first `k` cells of row `y`, from `minX` eastward, and after the last. */
  function Crossings(walls: map<Coord, Color>, directions: map<Color, Direction>, y: int, minX: int, k: nat): (r: seq<Crossing>)
    requires RowValid(walls, directions, y)
    ensures |r| == k + 1 && r[0] == Crossing(0, None)
  {
    if k == 0 then [Crossing(0, None)]
    else
      var before := Crossings(walls, directions, y, minX, k - 1);
      before + [CrossStep(walls, directions, Coord(y, minX + k - 1), before[k - 1])]
  }

  /** Each entry follows from the one before by one cell of the scan. */
  lemma {:induction false} CrossingsStep(walls: map<Coord, Color>, directions: map<Color, Direction>, y: int, minX: int, k: nat, i: nat)
    requires RowValid(walls, directions, y) && i < k
    ensures var r := Crossings(walls, directions, y, minX, k);
      r[i + 1] == CrossStep(walls, directions, Coord(y, minX + i), r[i])
  {
    if i < k - 1 {
      CrossingsStep(walls, directions, y, minX, k - 1, i);
    }
  }

  /**
   * Cell `j` of the row is dug out: it is vacant and, counting it, an odd
   * number of walls lies west of it, as the scan's counters record.
   */
  predicate DugOut(walls: map<Coord, Color>, crossings: seq<Crossing>, y: int, minX: int, j: nat)
    requires j + 1 < |crossings|
  {
    Coord(y, minX + j) !in walls && crossings[j + 1].passed % 2 == 1
  }

  /** The walls after the first `k` cells of row `y` are scanned, given the scan's counters. */
  function RowDug(walls: map<Coord, Color>, crossings: seq<Crossing>, y: int, minX: int, k: nat): map<Coord, Color>
    requires k < |crossings|
  {
    if k == 0 then walls
    else
      var before := RowDug(walls, crossings, y, minX, k - 1);
      if DugOut(walls, crossings, y, minX, k - 1) then before[Coord(y, minX + k - 1) := Black] else before
  }

  /** The two maps hold the same at `q`. */
  predicate AgreeAt(m1: map<Coord, Color>, m2: map<Coord, Color>, q: Coord) {
    (q in m1 <==> q in m2) && (q in m1 ==> m1[q] == m2[q])
  }

  /**
   * Scanning part of a row adds exactly the dug-out cells of that part, in
   * `Color::new()`, and leaves every other cell as it was.
   */
  lemma RowDugCells(walls: map<Coord, Color>, crossings: seq<Crossing>, y: int, minX: int, k: nat)
    requires k < |crossings|
    ensures var m := RowDug(walls, crossings, y, minX, k);
      forall q :: q in m <==> q in walls || (q.y == y && minX <= q.x < minX + k && DugOut(walls, crossings, y, minX, q.x - minX))
    ensures var m := RowDug(walls, crossings, y, minX, k);
      forall q :: q in m ==> m[q] == if q in walls then walls[q] else Black
    ensures var m := RowDug(walls, crossings, y, minX, k);
      forall q: Coord :: q.y != y || q.x < minX || q.x >= minX + k ==> AgreeAt(m, walls, q)
  {
    RowDugKeys(walls, crossings, y, minX, k);
    RowDugValues(walls, crossings, y, minX, k);
    RowDugOutside(walls, crossings, y, minX, k);
  }

  /** The cells of the row the scan digs out are added, and nothing else. */
  lemma {:induction false} RowDugKeys(walls: map<Coord, Color>, crossings: seq<Crossing>, y: int, minX: int, k: nat)
    requires k < |crossings|
    ensures var m := RowDug(walls, crossings, y, minX, k);
      forall q :: q in m <==> q in walls || (q.y == y && minX <= q.x < minX + k && DugOut(walls, crossings, y, minX, q.x - minX))
  {
    if k > 0 {
      RowDugKeys(walls, crossings, y, minX, k - 1);
      var m := RowDug(walls, crossings, y, minX, k);
      var before := RowDug(walls, crossings, y, minX, k - 1);
      var c := Coord(y, minX + k - 1);
      assert m.Keys == before.Keys + (if DugOut(walls, crossings, y, minX, k - 1) then {c} else {});
      forall q ensures q in m <==> q in walls || (q.y == y && minX <= q.x < minX + k && DugOut(walls, crossings, y, minX, q.x - minX)) {
        if q == c {
          assert q.x - minX == k - 1;
        }
      }
    }
  }

  /** Walls keep their colour and dug-out cells are black. */
  lemma {:induction false} RowDugValues(walls: map<Coord, Color>, crossings: seq<Crossing>, y: int, minX: int, k: nat)
    requires k < |crossings|
    ensures var m := RowDug(walls, crossings, y, minX, k);
      forall q :: q in m ==> m[q] == if q in walls then walls[q] else Black
  {
    if k > 0 {
      RowDugValues(walls, crossings, y, minX, k - 1);
      var m := RowDug(walls, crossings, y, minX, k);
      var before := RowDug(walls, crossings, y, minX, k - 1);
      var c := Coord(y, minX + k - 1);
      forall q | q in m ensures m[q] == if q in walls then walls[q] else Black {
        if q != c || !DugOut(walls, crossings, y, minX, k - 1) {
          assert q in before && m[q] == before[q];
        }
      }
    }
  }

  /** Cells off the scanned stretch of the row are as they were. */
  lemma RowDugOutside(walls: map<Coord, Color>, crossings: seq<Crossing>, y: int, minX: int, k: nat)
    requires k < |crossings|
    ensures var m := RowDug(walls, crossings, y, minX, k);
      forall q: Coord :: q.y != y || q.x < minX || q.x >= minX + k ==> AgreeAt(m, walls, q)
  {
    RowDugKeys(walls, crossings, y, minX, k);
    RowDugValues(walls, crossings, y, minX, k);
  }

  /** Scanning the first `k` cells of a row leaves every cell outside them as it was. */
  lemma {:induction false} RowDugAgrees(walls: map<Coord, Color>, crossings: seq<Crossing>, y: int, minX: int, k: nat, q: Coord)
    requires k < |crossings| && (q.y != y || q.x >= minX + k)
    ensures AgreeAt(RowDug(walls, crossings, y, minX, k), walls, q)
  {
    if k > 0 {
      RowDugAgrees(walls, crossings, y, minX, k - 1, q);
    }
  }

  /** The counters only look at the cell and the cells above and below it. */
  lemma CrossStepFrame(m1: map<Coord, Color>, m2: map<Coord, Color>, directions: map<Color, Direction>, c: Coord, s: Crossing)
    requires AgreeAt(m1, m2, c) && AgreeAt(m1, m2, Neighbor(c, North)) && AgreeAt(m1, m2, Neighbor(c, South))
    requires Scannable(m1, directions, c)
    ensures Scannable(m2, directions, c) && CrossStep(m1, directions, c, s) == CrossStep(m2, directions, c, s)
  {
    assert DirectionAt(m1, directions, c) == DirectionAt(m2, directions, c);
    assert DirectionAt(m1, directions, Neighbor(c, North)) == DirectionAt(m2, directions, Neighbor(c, North));
    assert DirectionAt(m1, directions, Neighbor(c, South)) == DirectionAt(m2, directions, Neighbor(c, South));
  }

  /** The number of values in `lo..hi + 1`. */
  function Span(lo: int, hi: int): nat {
    if hi + 1 - lo > 0 then hi + 1 - lo else 0
  }

  /** The walls of the rows from `minY` on name directions. */
  predicate RowsValid(walls: map<Coord, Color>, directions: map<Color, Direction>, minY: int) {
    forall c :: c in walls && c.y >= minY ==> walls[c] in directions
  }

  /**
   * The first `k` rows dug out, each scanned over `minX..=maxX`: no wall is
   * removed or recoloured, and every new cell is a dug-out cell inside the
   * scanned box.
   */
  function DigRows(walls: map<Coord, Color>, directions: map<Color, Direction>, minY: int, minX: int, maxX: int, k: nat): (r: map<Coord, Color>)
    requires RowsValid(walls, directions, minY)
    ensures forall c :: c in walls ==> c in r && r[c] == walls[c]
    ensures forall c :: c in r && c !in walls ==> minY <= c.y < minY + k && minX <= c.x <= maxX && r[c] == Black
  {
    if k == 0 then walls
    else
      var before := DigRows(walls, directions, minY, minX, maxX, k - 1);
      var crossings := Crossings(before, directions, minY + k - 1, minX, Span(minX, maxX));
      RowDugCells(before, crossings, minY + k - 1, minX, Span(minX, maxX));
      RowDug(before, crossings, minY + k - 1, minX, Span(minX, maxX))
  }

  /**
   * `Lagoon::dig_inside` over the rows `minY..=maxY`: no wall is removed or
   * recoloured, and every new cell is a dug-out cell inside the box.
   */
  function Dug(walls: map<Coord, Color>, directions: map<Color, Direction>, minY: int, maxY: int, minX: int, maxX: int): (r: map<Coord, Color>)
    requires ValidWalls(walls, directions)
    ensures forall c :: c in walls ==> c in r && r[c] == walls[c]
    ensures forall c :: c in r && c !in walls ==> minY <= c.y <= maxY && minX <= c.x <= maxX && r[c] == Black
    ensures |walls| <= |r|
  {
    var r := DigRows(walls, directions, minY, minX, maxX, Span(minY, maxY));
    assert walls.Keys <= r.Keys;
    SubsetCard(walls.Keys, r.Keys);
    r
  }

  lemma SubsetCard<T>(a: set<T>, b: set<T>)
    requires a <= b
    ensures |a| <= |b|
  {
    if a != {} {
      var x :| x in a;
      SubsetCard(a - {x}, b - {x});
    }
  }

  /** The lagoon of part 1: the trench map, the colour directions and the scan box. */
  class Lagoon {
    var wallColors: map<Coord, Color>
    var colorDirections: map<Color, Direction>
    var minX: int
    var maxX: int
    var minY: int
    var maxY: int

    predicate Valid()
      reads this
    {
      ValidWalls(wallColors, colorDirections)
    }

    /** The lagoon of a finished trench; the box is the line ends' extremes widened by three. */
    constructor (d: Digger)
      requires ValidWalls(d.walls, d.directions)
      ensures Valid()
      ensures wallColors == d.walls && colorDirections == d.directions
      ensures minX == d.minX - 3 && maxX == d.maxX + 3 && minY == d.minY - 3 && maxY == d.maxY + 3
    {
      wallColors := d.walls;
      colorDirections := d.directions;
      minX := d.minX - 3;
      maxX := d.maxX + 3;
      minY := d.minY - 3;
      maxY := d.maxY + 3;
    }

    /** `Lagoon::from_str`: the trench dug line by line, then the box widened by three. */
    static method FromStr(contents: string) returns (r: Result<Lagoon>)
      ensures r.Panic? ==> Trench(Lines(contents)) == Panic(r.reason)
      ensures r.Ok? ==> fresh(r.value) && r.value.Valid() && Trench(Lines(contents)).Ok?
      ensures r.Ok? ==> var d := Trench(Lines(contents)).value;
        r.value.wallColors == d.walls && r.value.colorDirections == d.directions &&
        r.value.minX == d.minX - 3 && r.value.maxX == d.maxX + 3 && r.value.minY == d.minY - 3 && r.value.maxY == d.maxY + 3
    {
      var d := DigPlan(Lines(contents));
      if d.Panic? {
        return Panic(d.reason);
      }
      var lagoon := new Lagoon(d.value);
      return Ok(lagoon);
    }

    /** `Lagoon::dig_inside`: every row of the box scanned in turn. */
    method DigInside()
      requires Valid()
      modifies this
      ensures colorDirections == old(colorDirections)
      ensures wallColors == Dug(old(wallColors), colorDirections, minY, maxY, minX, maxX)
      ensures minX == old(minX) && maxX == old(maxX) && minY == old(minY) && maxY == old(maxY)
    {
      ghost var walls := wallColors;
      for k := 0 to Span(minY, maxY)
        invariant colorDirections == old(colorDirections)
        invariant minX == old(minX) && maxX == old(maxX) && minY == old(minY) && maxY == old(maxY)
        invariant wallColors == DigRows(walls, colorDirections, minY, minX, maxX, k)
      {
        DigRow(minY + k);
      }
    }

    /** The inner loop of `dig_inside`: one row, west to east. */
    method DigRow(y: int)
      requires RowValid(wallColors, colorDirections, y)
      modifies this
      ensures colorDirections == old(colorDirections)
      ensures minX == old(minX) && maxX == old(maxX) && minY == old(minY) && maxY == old(maxY)
      ensures wallColors == RowDug(old(wallColors), Crossings(old(wallColors), colorDirections, y, minX, Span(minX, maxX)), y, minX, Span(minX, maxX))
    {
      ghost var walls := wallColors;
      ghost var crossings := Crossings(walls, colorDirections, y, minX, Span(minX, maxX));
      var wallsPassed: nat := 0;
      var lastJoin: Option<Direction> := None;
      for i := 0 to Span(minX, maxX)
        invariant colorDirections == old(colorDirections)
        invariant minX == old(minX) && maxX == old(maxX) && minY == old(minY) && maxY == old(maxY)
        invariant wallColors == RowDug(walls, crossings, y, minX, i)
        invariant Crossing(wallsPassed, lastJoin) == crossings[i]
      {
        var coord := Coord(y, minX + i);
        RowDugAgrees(walls, crossings, y, minX, i, coord);
        RowDugAgrees(walls, crossings, y, minX, i, Neighbor(coord, North));
        RowDugAgrees(walls, crossings, y, minX, i, Neighbor(coord, South));
        CrossStepFrame(walls, wallColors, colorDirections, coord, Crossing(wallsPassed, lastJoin));
        CrossingsStep(walls, colorDirections, y, minX, Span(minX, maxX), i);
        wallsPassed, lastJoin := ScanCell(coord, wallsPassed, lastJoin);
      }
    }

    /** One cell of the inner loop of `dig_inside`: the counters updated, and the cell dug out when vacant and inside. */
    method ScanCell(coord: Coord, wallsPassed: nat, lastJoin: Option<Direction>) returns (passed: nat, last: Option<Direction>)
      requires Scannable(wallColors, colorDirections, coord)
      modifies this
      ensures colorDirections == old(colorDirections)
      ensures minX == old(minX) && maxX == old(maxX) && minY == old(minY) && maxY == old(maxY)
      ensures Crossing(passed, last) == CrossStep(old(wallColors), colorDirections, coord, Crossing(wallsPassed, lastJoin))
      ensures wallColors == if coord !in old(wallColors) && passed % 2 == 1 then old(wallColors)[coord := Black] else old(wallColors)
    {
      passed, last := wallsPassed, lastJoin;
      if coord !in wallColors {
        if last.Some? {
          passed := passed + 1;
          last := None;
        }
        if passed % 2 == 1 {
          wallColors := wallColors[coord := Black];
        }
        return;
      }
      var newJoin := VerticalJoin(wallColors, colorDirections, coord);
      if newJoin.None? {
        return;
      }
      if last.Some? {
        if last != newJoin {
          passed := passed + 1;
        }
        last := None;
      } else {
        last := newJoin;
      }
    }
  }

  /** The loop of `Lagoon::from_str`: each line is read, then dug. */
  method DigPlan(lines: seq<string>) returns (r: Result<Digger>)
    ensures r == Trench(lines)
  {
    var d := Start;
    ghost var instructions: seq<Instruction> := [];
    for i := 0 to |lines|
      invariant MapResults(ParseInstruction, lines[..i]) == Ok(instructions) && d == Plan(instructions)
    {
      var ins := ParseInstruction(lines[i]);
      if ins.Panic? {
        MapResultsPanic(ParseInstruction, lines, i);
        return Panic(ins.reason);
      }
      MapResultsStep(ParseInstruction, lines, i, instructions, ins.value);
      d := DigAlong(d, ins.value);
      instructions := instructions + [ins.value];
      assert instructions[..|instructions| - 1] == instructions[..i];
    }
    assert lines[..|lines|] == lines;
    return Ok(d);
  }

  /** One line of `Lagoon::from_str`: the colour's direction recorded, then one painted cell per step. */
  method DigAlong(d: Digger, ins: Instruction) returns (next: Digger)
    ensures next == DigLine(d, ins)
  {
    var walls := d.walls;
    var current := d.position;
    for k := 0 to ins.steps
      invariant walls == Paint(d.walls, d.position, ins.direction, k, ins.color)
      invariant current == Walk(d.position, ins.direction, k)
    {
      current := Step(current, ins.direction);
      walls := walls[current := ins.color];
    }
    next := Digger(walls, d.directions[ins.color := ins.direction], current,
                   Min(current.x, d.minX), Max(current.x, d.maxX), Min(current.y, d.minY), Max(current.y, d.maxY));
  }

  /** The answer of part 1: the number of cells of the dug-out lagoon. */
  function Part1Of(contents: string): Result<nat> {
    match Trench(Lines(contents))
    case Panic(why) => Panic(why)
    case Ok(d) => Ok(|Dug(d.walls, d.directions, d.minY - 3, d.maxY + 3, d.minX - 3, d.maxX + 3)|)
  }

  /** `part1`: reads the lagoon, digs out its inside and counts the cells. */
  method Part1(contents: string) returns (r: Result<nat>)
    ensures r == Part1Of(contents)
  {
    var lagoon := Lagoon.FromStr(contents);
    if lagoon.Panic? {
      return Panic(lagoon.reason);
    }
    lagoon.value.DigInside();
    return Ok(|lagoon.value.wallColors|);
  }
}
