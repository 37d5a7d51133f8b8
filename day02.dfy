/**
 * Day 2: games of cubes drawn from a bag.  A game line reads
 * "Game <id>: <round>; <round>; ..." where a round is a comma-separated
 * list of draws " <quantity> <colour>".
 */
module Day02 {
  import opened Text

  datatype CubeCount = CubeCount(red: nat, green: nat, blue: nat)

  const NoCubes: CubeCount := CubeCount(0, 0, 0)

  /** One draw of a round: how many cubes of which colour. */
  datatype Draw = Draw(quantity: nat, colour: string)

  /**
   * A draw in text: the first two words after the first (empty) one of
   * `piece.split(' ')`; panics when either is missing or the quantity is not
   * a `usize`.
   */
  function ParseDraw(piece: string): (r: Result<Draw>)
    ensures r.Ok? ==> |Split(piece, ' ')| >= 3 && r.value.colour == Split(piece, ' ')[2]
  {
    var words := Split(piece, ' ');
    if |words| < 2 then Panic("quantity should exist")
    else match ParseUsize(words[1])
      case None => Panic("quantity is not a number")
      case Some(q) => if |words| < 3 then Panic("colour should exist") else Ok(Draw(q, words[2]))
  }

  /** Printing a draw as " <quantity> <colour>" and parsing it back gives the same draw. */
  lemma ParseDrawRoundTrip(quantity: nat, colour: string)
    requires quantity <= USIZE_MAX && ' ' !in colour
    ensures ParseDraw(" " + Decimal(quantity) + " " + colour) == Ok(Draw(quantity, colour))
  {
    var digits := Decimal(quantity);
    assert ' ' !in digits by {
      forall i | 0 <= i < |digits| ensures digits[i] != ' ' {
        assert IsDigit(digits[i]);
      }
    }
    var parts := ["", digits, colour];
    assert Join(parts, ' ') == " " + digits + " " + colour by {
      assert Join(parts[1..], ' ') == digits + " " + Join(parts[2..], ' ');
    }
    SplitJoin(parts, ' ');
    ParseDecimal(quantity, USIZE_MAX);
  }

  predicate KnownColour(colour: string) {
    colour == "red" || colour == "green" || colour == "blue"
  }

  /** A draw that `CubeCount::from_str` accepts. */
  predicate ValidDraw(piece: string) {
    ParseDraw(piece).Ok? && KnownColour(ParseDraw(piece).value.colour)
  }

  /** Every draw is one that `CubeCount::from_str` accepts. */
  predicate AllValid(pieces: seq<string>) {
    forall i :: 0 <= i < |pieces| ==> ValidDraw(pieces[i])
  }

  /** The quantity of the last draw of `colour` among `pieces`, 0 when there is none. */
  function LastMention(pieces: seq<string>, colour: string): nat
    requires AllValid(pieces)
  {
    if |pieces| == 0 then 0
    else
      assert ValidDraw(pieces[|pieces| - 1]);
      var last := ParseDraw(pieces[|pieces| - 1]).value;
      if last.colour == colour then last.quantity else LastMention(pieces[..|pieces| - 1], colour)
  }

  /** Sets the field a well-formed draw names; panics on any other colour. */
  function Assign(res: CubeCount, d: Draw): Result<CubeCount> {
    if d.colour == "red" then Ok(res.(red := d.quantity))
    else if d.colour == "green" then Ok(res.(green := d.quantity))
    else if d.colour == "blue" then Ok(res.(blue := d.quantity))
    else Panic("unknown colour")
  }

  /** The draws applied in order to the zero count, stopping at the first panic. */
  function AssignAll(pieces: seq<string>): Result<CubeCount> {
    if |pieces| == 0 then Ok(NoCubes)
    else match AssignAll(pieces[..|pieces| - 1])
      case Panic(why) => Panic(why)
      case Ok(res) =>
        match ParseDraw(pieces[|pieces| - 1])
        case Panic(why) => Panic(why)
        case Ok(d) => Assign(res, d)
  }

  /** `CubeCount::from_str`, as a function of the text. */
  function CubeCountOf(s: string): Result<CubeCount> {
    AssignAll(Split(s, ','))
  }

  /**
   * The meaning of applying the draws: it panics iff some draw is malformed
   * or names an unknown colour; otherwise every colour holds the quantity of
   * its last mention, and an unmentioned colour stays 0.
   */
  lemma {:induction false} AssignAllMeaning(pieces: seq<string>)
    ensures AssignAll(pieces).Ok? <==> AllValid(pieces)
    ensures AssignAll(pieces).Ok? ==>
      AssignAll(pieces).value == CubeCount(LastMention(pieces, "red"), LastMention(pieces, "green"), LastMention(pieces, "blue"))
  {
    if |pieces| > 0 {
      var n := |pieces| - 1;
      var prefix := pieces[..n];
      var last := pieces[n];
      AssignAllMeaning(prefix);
      assert AllValid(pieces) <==> AllValid(prefix) && ValidDraw(last) by {
        assert forall i :: 0 <= i < |prefix| ==> prefix[i] == pieces[i];
        if !ValidDraw(last) {
          assert !ValidDraw(pieces[n]);
        }
      }
      if AllValid(pieces) {
        var d := ParseDraw(last).value;
        var res := AssignAll(prefix).value;
        AssignKnown(res, d);
      }
    }
  }

  /** A draw of a known colour sets that colour's field and keeps the other two. */
  lemma AssignKnown(res: CubeCount, d: Draw)
    requires KnownColour(d.colour)
    ensures Assign(res, d) == Ok(CubeCount(
      if d.colour == "red" then d.quantity else res.red,
      if d.colour == "green" then d.quantity else res.green,
      if d.colour == "blue" then d.quantity else res.blue))
  {
    assert "red" != "green" && "red" != "blue" && "green" != "blue" by {
      assert "red"[0] != "green"[0] && "red"[0] != "blue"[0] && "green"[0] != "blue"[0];
    }
  }

  /**
   * `CubeCount::from_str`: sets one field per draw, in order, so each colour
   * ends with its last mentioned quantity; panics on a malformed draw or an
   * unknown colour.
   */
  method FromStr(s: string) returns (r: Result<CubeCount>)
    ensures r.Ok? <==> AllValid(Split(s, ','))
    ensures r.Ok? ==> r.value == CubeCount(LastMention(Split(s, ','), "red"),
      LastMention(Split(s, ','), "green"), LastMention(Split(s, ','), "blue"))
    ensures r.Ok? ==> r == CubeCountOf(s)
  {
    var pieces := Split(s, ',');
    var res := NoCubes;
    for i := 0 to |pieces|
      invariant AssignAll(pieces[..i]) == Ok(res)
    {
      AssignStep(pieces, i, res);
      var draw := ParseDraw(pieces[i]);
      if draw.Panic? {
        AssignAllPanic(pieces, i + 1);
        AssignAllMeaning(pieces);
        return Panic("bad draw");
      }
      if draw.value.colour == "red" {
        res := res.(red := draw.value.quantity);
      } else if draw.value.colour == "green" {
        res := res.(green := draw.value.quantity);
      } else if draw.value.colour == "blue" {
        res := res.(blue := draw.value.quantity);
      } else {
        AssignAllPanic(pieces, i + 1);
        AssignAllMeaning(pieces);
        return Panic("unknown colour");
      }
    }
    assert pieces[..|pieces|] == pieces;
    AssignAllMeaning(pieces);
    return Ok(res);
  }

  /** One more draw: its parse, applied to the count so far. */
  lemma AssignStep(pieces: seq<string>, i: nat, res: CubeCount)
    requires i < |pieces| && AssignAll(pieces[..i]) == Ok(res)
    ensures ParseDraw(pieces[i]).Panic? ==> AssignAll(pieces[..i + 1]).Panic?
    ensures ParseDraw(pieces[i]).Ok? ==> AssignAll(pieces[..i + 1]) == Assign(res, ParseDraw(pieces[i]).value)
  {
    assert pieces[..i + 1][..i] == pieces[..i] && pieces[..i + 1][i] == pieces[i];
  }

  /** Once a prefix of the draws panics, all of them do. */
  lemma {:induction false} AssignAllPanic(pieces: seq<string>, k: nat)
    requires k <= |pieces| && AssignAll(pieces[..k]).Panic?
    ensures AssignAll(pieces).Panic?
  {
    if k < |pieces| {
      var prefix := pieces[..|pieces| - 1];
      assert prefix[..k] == pieces[..k];
      AssignAllPanic(prefix, k);
    } else {
      assert pieces[..k] == pieces;
    }
  }

  function Max(a: nat, b: nat): nat { if a < b then b else a }

  /** `merged_with`: the componentwise maximum. */
  function MergedWith(a: CubeCount, b: CubeCount): (m: CubeCount)
    ensures Le(a, m) && Le(b, m)
    ensures forall c :: Le(a, c) && Le(b, c) ==> Le(m, c)
  {
    CubeCount(Max(a.red, b.red), Max(a.green, b.green), Max(a.blue, b.blue))
  }

  /** Componentwise at most. */
  predicate Le(a: CubeCount, b: CubeCount) {
    a.red <= b.red && a.green <= b.green && a.blue <= b.blue
  }

  lemma MergedWithCommutative(a: CubeCount, b: CubeCount)
    ensures MergedWith(a, b) == MergedWith(b, a)
  {
  }

  lemma MergedWithAssociative(a: CubeCount, b: CubeCount, c: CubeCount)
    ensures MergedWith(MergedWith(a, b), c) == MergedWith(a, MergedWith(b, c))
  {
  }

  lemma MergedWithIdempotent(a: CubeCount)
    ensures MergedWith(a, a) == a
  {
  }

  lemma MergedWithIdentity(a: CubeCount)
    ensures MergedWith(NoCubes, a) == a && MergedWith(a, NoCubes) == a
  {
  }

  /** `get_power` */
  function Power(c: CubeCount): (p: nat)
    ensures p == 0 <==> c.red == 0 || c.green == 0 || c.blue == 0
  {
    c.red * c.green * c.blue
  }

  // ---------------------------------------------------------------------
  // Part 1

  const RedLimit: nat := 12
  const GreenLimit: nat := 13
  const BlueLimit: nat := 14

  /** A draw is within the bag's limits; a colour other than the three is never over. */
  predicate WithinLimits(d: Draw) {
    !((d.colour == "red" && d.quantity > RedLimit) || (d.colour == "green" && d.quantity > GreenLimit)
      || (d.colour == "blue" && d.quantity > BlueLimit))
  }

  /** A draw is well formed and within the limits. */
  predicate GoodDraw(piece: string) {
    ParseDraw(piece).Ok? && WithinLimits(ParseDraw(piece).value)
  }

  /** The closure inside `all`: false at the first draw over a limit, draws after it unread. */
  function RoundPossible(draws: seq<string>): Result<bool> {
    if |draws| == 0 then Ok(true)
    else match ParseDraw(draws[0])
      case Panic(why) => Panic(why)
      case Ok(d) => if !WithinLimits(d) then Ok(false) else RoundPossible(draws[1..])
  }

  /** `rounds.all(..)`: stops at the first impossible round. */
  function GamePossible(rounds: seq<string>): Result<bool> {
    if |rounds| == 0 then Ok(true)
    else match RoundPossible(Split(rounds[0], ','))
      case Panic(why) => Panic(why)
      case Ok(b) => if !b then Ok(false) else GamePossible(rounds[1..])
  }

  /** A round is possible iff all its draws are well formed and within the limits. */
  lemma {:induction false} RoundPossibleTrue(draws: seq<string>)
    ensures RoundPossible(draws) == Ok(true) <==> forall i :: 0 <= i < |draws| ==> GoodDraw(draws[i])
  {
    if |draws| > 0 {
      RoundPossibleTrue(draws[1..]);
      if forall i :: 0 <= i < |draws| ==> GoodDraw(draws[i]) {
        assert forall i :: 0 <= i < |draws| - 1 ==> GoodDraw(draws[1..][i]) by {
          forall i | 0 <= i < |draws| - 1 ensures GoodDraw(draws[1..][i]) {
            assert draws[1..][i] == draws[i + 1];
          }
        }
      }
    }
  }

  /** Draw `i` is the first that is not good, and it is well formed but over a limit. */
  predicate OverLimitFirst(draws: seq<string>, i: int) {
    0 <= i < |draws| && ParseDraw(draws[i]).Ok? && !WithinLimits(ParseDraw(draws[i]).value)
    && forall j :: 0 <= j < i ==> GoodDraw(draws[j])
  }

  /** A round is impossible iff the first draw that is not good is well formed but over a limit. */
  lemma RoundPossibleFalse(draws: seq<string>)
    ensures RoundPossible(draws) == Ok(false) <==> exists i :: OverLimitFirst(draws, i)
  {
    if RoundPossible(draws) == Ok(false) {
      var i := RoundFalseWitness(draws);
    }
    if exists i :: OverLimitFirst(draws, i) {
      var i :| OverLimitFirst(draws, i);
      RoundFalseFrom(draws, i);
    }
  }

  lemma {:induction false} RoundFalseWitness(draws: seq<string>) returns (i: nat)
    requires RoundPossible(draws) == Ok(false)
    ensures OverLimitFirst(draws, i)
  {
    if GoodDraw(draws[0]) {
      var k := RoundFalseWitness(draws[1..]);
      i := k + 1;
      forall j | 1 <= j < i ensures GoodDraw(draws[j]) {
        assert draws[j] == draws[1..][j - 1];
      }
      assert draws[i] == draws[1..][k];
    } else {
      i := 0;
    }
  }

  lemma {:induction false} RoundFalseFrom(draws: seq<string>, i: nat)
    requires OverLimitFirst(draws, i)
    ensures RoundPossible(draws) == Ok(false)
  {
    if i > 0 {
      assert GoodDraw(draws[0]);
      assert draws[1..][i - 1] == draws[i];
      forall j | 0 <= j < i - 1 ensures GoodDraw(draws[1..][j]) {
        assert draws[1..][j] == draws[j + 1];
      }
      RoundFalseFrom(draws[1..], i - 1);
    }
  }

  /** A game is possible iff every round is. */
  lemma {:induction false} GamePossibleTrue(rounds: seq<string>)
    ensures GamePossible(rounds) == Ok(true) <==> forall i :: 0 <= i < |rounds| ==> RoundPossible(Split(rounds[i], ',')) == Ok(true)
  {
    if |rounds| > 0 {
      GamePossibleTrue(rounds[1..]);
      assert forall i :: 1 <= i < |rounds| ==> rounds[i] == rounds[1..][i - 1];
    }
  }

  /** The id of a game: the characters from index 5 up to the first ':', as a `u32`. */
  function GameId(game: string): Result<nat> {
    match IndexOf(game, ':')
    case None => Panic("no colon")
    case Some(colon) =>
      if colon < 5 then Panic("slice out of range")
      else match ParseNat(game[5..colon], 0xFFFF_FFFF)
        case None => Panic("bad game number")
        case Some(id) => Ok(id)
  }

  /** The rounds of a game: the text after the first ':', split on ';'. */
  function Rounds(game: string): seq<string>
    requires ':' in game
  {
    Split(game[IndexOf(game, ':').value + 1..], ';')
  }

  /** A game line that `part1` reads without panicking. */
  predicate Part1Readable(game: string) {
    GameId(game).Ok? && GamePossible(Rounds(game)).Ok?
  }

  /** What one game line adds in part 1: its id when the game is possible, else 0. */
  function GameScore(game: string): Result<nat> {
    match GameId(game)
    case Panic(why) => Panic(why)
    case Ok(id) =>
      match GamePossible(Rounds(game))
      case Panic(why) => Panic(why)
      case Ok(possible) => Ok(if possible then id else 0)
  }

  /** A game line adds its id exactly when every draw of every round is within the limits. */
  lemma GameScorePossible(game: string)
    requires Part1Readable(game)
    ensures GameScore(game).Ok?
    ensures (forall i :: 0 <= i < |Rounds(game)| ==> RoundPossible(Split(Rounds(game)[i], ',')) == Ok(true))
      ==> GameScore(game).value == GameId(game).value
    ensures !(forall i :: 0 <= i < |Rounds(game)| ==> RoundPossible(Split(Rounds(game)[i], ',')) == Ok(true))
      ==> GameScore(game).value == 0
  {
    GamePossibleTrue(Rounds(game));
  }

  /** Part 1 over a list of game lines: the sum of the ids of the possible games. */
  function SumPossible(games: seq<string>): Result<nat> {
    SumResults(GameScore, games)
  }

  /** The sum panics iff some game line is not readable. */
  lemma SumPossibleOk(games: seq<string>)
    ensures SumPossible(games).Ok? <==> forall i :: 0 <= i < |games| ==> Part1Readable(games[i])
  {
    SumResultsOk(GameScore, games);
  }

  /** `part1`: the loop over the lines adding the ids of the possible games. */
  method Part1(contents: string) returns (r: Result<nat>)
    ensures r.Ok? <==> forall i :: 0 <= i < |Lines(contents)| ==> Part1Readable(Lines(contents)[i])
    ensures r == SumPossible(Lines(contents))
  {
    r := SumEach(GameScore, Lines(contents));
    SumPossibleOk(Lines(contents));
  }

  // ---------------------------------------------------------------------
  // Part 2

  /** The fold of `merged_with` over the rounds' counts, starting from `acc`. */
  function MergeRounds(acc: CubeCount, rounds: seq<string>): Result<CubeCount>
    decreases |rounds|
  {
    if |rounds| == 0 then Ok(acc)
    else match CubeCountOf(rounds[0])
      case Panic(why) => Panic(why)
      case Ok(c) => MergeRounds(MergedWith(acc, c), rounds[1..])
  }

  /** The fold panics iff the count of some round panics. */
  lemma {:induction false} MergeRoundsOk(acc: CubeCount, rounds: seq<string>)
    ensures MergeRounds(acc, rounds).Ok? <==> forall i :: 0 <= i < |rounds| ==> CubeCountOf(rounds[i]).Ok?
    decreases |rounds|
  {
    if |rounds| > 0 {
      var rest := rounds[1..];
      assert forall i :: 1 <= i < |rounds| ==> rounds[i] == rest[i - 1];
      if CubeCountOf(rounds[0]).Ok? {
        var acc' := MergedWith(acc, CubeCountOf(rounds[0]).value);
        assert MergeRounds(acc, rounds) == MergeRounds(acc', rest);
        MergeRoundsOk(acc', rest);
      }
    }
  }

  /** `c` bounds the counts of all the rounds. */
  predicate BoundsAll(c: CubeCount, rounds: seq<string>)
    requires forall i :: 0 <= i < |rounds| ==> CubeCountOf(rounds[i]).Ok?
  {
    forall i :: 0 <= i < |rounds| ==> Le(CubeCountOf(rounds[i]).value, c)
  }

  /** The fold is the least count that bounds `acc` and every round. */
  lemma {:induction false} MergeRoundsIsLeastBound(acc: CubeCount, rounds: seq<string>)
    requires MergeRounds(acc, rounds).Ok?
    ensures forall i :: 0 <= i < |rounds| ==> CubeCountOf(rounds[i]).Ok?
    ensures Le(acc, MergeRounds(acc, rounds).value)
    ensures forall i :: 0 <= i < |rounds| ==> Le(CubeCountOf(rounds[i]).value, MergeRounds(acc, rounds).value)
    ensures forall c :: BoundsAll(c, rounds) && Le(acc, c) ==> Le(MergeRounds(acc, rounds).value, c)
    decreases |rounds|
  {
    MergeRoundsOk(acc, rounds);
    if |rounds| > 0 {
      var c0 := CubeCountOf(rounds[0]).value;
      var acc', rest := MergedWith(acc, c0), rounds[1..];
      assert MergeRounds(acc, rounds) == MergeRounds(acc', rest);
      MergeRoundsIsLeastBound(acc', rest);
      var m := MergeRounds(acc', rest).value;
      forall i | 1 <= i < |rounds| ensures Le(CubeCountOf(rounds[i]).value, m) {
        assert rounds[i] == rest[i - 1];
      }
      forall c | BoundsAll(c, rounds) && Le(acc, c) ensures Le(m, c) {
        BoundsAllTail(c, rounds);
      }
    }
  }

  /** A bound of all the rounds bounds the first one and the rest. */
  lemma BoundsAllTail(c: CubeCount, rounds: seq<string>)
    requires |rounds| > 0 && forall i :: 0 <= i < |rounds| ==> CubeCountOf(rounds[i]).Ok?
    requires BoundsAll(c, rounds)
    ensures Le(CubeCountOf(rounds[0]).value, c) && BoundsAll(c, rounds[1..])
  {
    var rest := rounds[1..];
    forall j | 0 <= j < |rest| ensures CubeCountOf(rest[j]).Ok? && Le(CubeCountOf(rest[j]).value, c) {
      assert rest[j] == rounds[j + 1];
    }
  }

  /** The fewest cubes that make a game possible, or a panic when the line has no ':'. */
  function MinimumSet(game: string): Result<CubeCount> {
    var halves := Split(game, ':');
    if |halves| < 2 then Panic("no colon") else MergeRounds(NoCubes, Split(halves[1], ';'))
  }

  /** What one game line adds in part 2: the power of its minimum set. */
  function GamePower(game: string): Result<nat> {
    match MinimumSet(game)
    case Panic(why) => Panic(why)
    case Ok(c) => Ok(Power(c))
  }

  /** Part 2 over a list of game lines: the sum of the powers of their minimum sets. */
  function SumPowers(games: seq<string>): Result<nat> {
    SumResults(GamePower, games)
  }

  /** The sum panics iff the minimum set of some game panics. */
  lemma SumPowersOk(games: seq<string>)
    ensures SumPowers(games).Ok? <==> forall i :: 0 <= i < |games| ==> MinimumSet(games[i]).Ok?
  {
    SumResultsOk(GamePower, games);
  }

  /** `part2`: the loop over the lines adding the power of each game's minimum set. */
  method Part2(contents: string) returns (r: Result<nat>)
    ensures r.Ok? <==> forall i :: 0 <= i < |Lines(contents)| ==> MinimumSet(Lines(contents)[i]).Ok?
    ensures r == SumPowers(Lines(contents))
  {
    r := SumEach(GamePower, Lines(contents));
    SumPowersOk(Lines(contents));
  }
}
