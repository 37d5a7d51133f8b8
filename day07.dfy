/**
 * Day 7, "Camel Cards" (src/bin/day07.rs): each hand of cards has a type
 * decided by its two largest card counts; `part1` orders the hands from
 * the weakest to the strongest, breaking ties card by card, and adds up
 * each bid times the hand's rank.
 */
module Day07 {
  import opened Text

  // ---------------------------------------------------------------------
  // Hand types

  /** The variants in declaration order, strongest first. */
  datatype HandType = FiveKind | FourKind | FullHouse | ThreeKind | TwoPair | OnePair | HighCard

  /**
   * The position of a variant in the declaration, which the derived
   * `PartialOrd` compares: `FiveKind` is the least of all.
   */
  function Position(t: HandType): (p: nat)
    ensures p <= 6 && (p == 0 <==> t == FiveKind)
  {
    match t
    case FiveKind => 0
    case FourKind => 1
    case FullHouse => 2
    case ThreeKind => 3
    case TwoPair => 4
    case OnePair => 5
    case HighCard => 6
  }

  /** Distinct variants have distinct positions, so the derived order is total. */
  lemma PositionInjective(a: HandType, b: HandType)
    requires Position(a) == Position(b)
    ensures a == b
  {
  }

  /**
   * The `match` of `get_hand_type`: the type for the largest count `most`
   * and the largest count `second` among the other cards.
   */
  function TypeOf(most: nat, second: nat): HandType {
    if most == 5 then FiveKind
    else if most == 4 then FourKind
    else if most == 3 then (if second == 2 then FullHouse else ThreeKind)
    else if most == 2 then (if second == 2 then TwoPair else OnePair)
    else HighCard
  }

  // ---------------------------------------------------------------------
  // Counting the cards

  /** `hand.chars().counts()` */
  function Counts(hand: string): (m: map<char, nat>)
    ensures forall c :: c in m <==> c in hand
    ensures forall c :: c in m ==> m[c] == CountChar(hand, c)
  {
    map c | c in hand :: CountChar(hand, c)
  }

  /** `order` lists every key of `m` exactly once. */
  predicate Lists(m: map<char, nat>, order: seq<char>) {
    (forall i :: 0 <= i < |order| ==> order[i] in m)
    && (forall k :: k in m ==> k in order)
    && (forall i, j :: 0 <= i < j < |order| ==> order[i] != order[j])
  }

  /** The cards of a hand in the order they first appear. */
  function Distinct(s: string): (d: string)
    ensures forall c :: c in d <==> c in s
    ensures forall i, j :: 0 <= i < j < |d| ==> d[i] != d[j]
  {
    if |s| == 0 then []
    else
      var d := Distinct(s[..|s| - 1]);
      assert forall c :: c in s <==> c in s[..|s| - 1] || c == s[|s| - 1];
      if s[|s| - 1] in d then d else d + [s[|s| - 1]]
  }

  /**
   * `most` is the largest count of the cards in `keys` and `second` the
   * largest count of the others once one card with count `most` is set
   * aside (0 when there are none).
   */
  ghost predicate RankedIn(m: map<char, nat>, keys: set<char>, most: nat, second: nat)
    requires keys <= m.Keys
  {
    second <= most
    && (forall k :: k in keys ==> m[k] <= most)
    && (most == 0 || exists k :: k in keys && m[k] == most)
    && (forall k1, k2 :: k1 in keys && k2 in keys && k1 != k2 ==> m[k1] <= second || m[k2] <= second)
    && (second == 0 || exists k1, k2 :: k1 in keys && k2 in keys && k1 != k2 && m[k1] == most && m[k2] == second)
  }

  /** One round of the counting loop of `get_hand_type`. */
  function Track(acc: (nat, nat), count: nat): (nat, nat) {
    if count > acc.0 then (count, acc.0)
    else if count > acc.1 then (acc.0, count)
    else acc
  }

  /** The two counts the loop of `get_hand_type` ends with when it visits the cards in `order`. */
  function TopTwo(m: map<char, nat>, order: seq<char>): (nat, nat)
    requires forall i :: 0 <= i < |order| ==> order[i] in m
  {
    if |order| == 0 then (0, 0)
    else Track(TopTwo(m, order[..|order| - 1]), m[order[|order| - 1]])
  }

  /** The loop finds the largest count and the largest count among the other cards. */
  lemma {:induction false} TopTwoRanked(m: map<char, nat>, order: seq<char>)
    requires forall i :: 0 <= i < |order| ==> order[i] in m
    requires forall i, j :: 0 <= i < j < |order| ==> order[i] != order[j]
    ensures (set c | c in order) <= m.Keys
    ensures RankedIn(m, (set c | c in order), TopTwo(m, order).0, TopTwo(m, order).1)
  {
    if |order| > 0 {
      var p, k := order[..|order| - 1], order[|order| - 1];
      TopTwoRanked(m, p);
      var before, keys := (set c | c in p), (set c | c in order);
      assert keys == before + {k};
      assert k !in before;
      var (most, second) := TopTwo(m, p);
      var count := m[k];
      if count > most {
        if most > 0 {
          var k0 :| k0 in before && m[k0] == most;
          assert k0 != k;
        }
      } else if count > second {
        var k0 :| k0 in before && m[k0] == most;
        assert k0 != k;
      }
    }
  }

  /** Two pairs of counts that both rank the same cards are the same pair. */
  lemma RankedUnique(m: map<char, nat>, keys: set<char>, most: nat, second: nat, most': nat, second': nat)
    requires keys <= m.Keys
    requires RankedIn(m, keys, most, second) && RankedIn(m, keys, most', second')
    ensures most == most' && second == second'
  {
    assert most == most';
    if second' > 0 {
      var k1, k2 :| k1 in keys && k2 in keys && k1 != k2 && m[k1] == most' && m[k2] == second';
    }
    if second > 0 {
      var k1, k2 :| k1 in keys && k2 in keys && k1 != k2 && m[k1] == most && m[k2] == second;
    }
  }

  /**
   * The counts `get_hand_type` ends with do not depend on the order in
   * which the `HashMap` yields the cards.
   */
  lemma TopTwoAnyOrder(m: map<char, nat>, order: seq<char>, order': seq<char>)
    requires Lists(m, order) && Lists(m, order')
    ensures TopTwo(m, order) == TopTwo(m, order')
  {
    TopTwoRanked(m, order);
    TopTwoRanked(m, order');
    assert (set c | c in order) == m.Keys == (set c | c in order');
    RankedUnique(m, m.Keys, TopTwo(m, order).0, TopTwo(m, order).1, TopTwo(m, order').0, TopTwo(m, order').1);
  }

  /** The type of a hand, counting its cards in the order they first appear. */
  function HandTypeOf(hand: string): HandType {
    var (most, second) := TopTwo(Counts(hand), Distinct(hand));
    TypeOf(most, second)
  }

  /**
   * The type of a hand comes from the largest count of any of its cards and
   * the largest count of the other cards.
   */
  lemma HandTypeRanked(hand: string)
    ensures Lists(Counts(hand), Distinct(hand))
    ensures RankedIn(Counts(hand), Counts(hand).Keys, TopTwo(Counts(hand), Distinct(hand)).0, TopTwo(Counts(hand), Distinct(hand)).1)
  {
    TopTwoRanked(Counts(hand), Distinct(hand));
    assert (set c | c in Distinct(hand)) == Counts(hand).Keys;
  }

  /**
   * `get_hand_type`, visiting the counted cards in the unspecified order
   * `order` of the `HashMap`.
   */
  method GetHandType(hand: string, order: seq<char>) returns (t: HandType)
    requires Lists(Counts(hand), order)
    ensures t == HandTypeOf(hand)
  {
    var cardCounts := Counts(hand);
    var mostFreqCount, secondMostFreqCount := 0, 0;
    for i := 0 to |order|
      invariant (mostFreqCount, secondMostFreqCount) == TopTwo(cardCounts, order[..i])
    {
      var count := cardCounts[order[i]];
      if count > mostFreqCount {
        secondMostFreqCount := mostFreqCount;
        mostFreqCount := count;
      } else if count > secondMostFreqCount {
        secondMostFreqCount := count;
      }
      assert order[..i + 1][..i] == order[..i];
    }
    assert order[..|order|] == order;
    HandTypeRanked(hand);
    TopTwoAnyOrder(cardCounts, order, Distinct(hand));
    t := TypeOf(mostFreqCount, secondMostFreqCount);
  }

  // ---------------------------------------------------------------------
  // Comparing hands

  datatype Ordering = Less | Equal | Greater

  const CardOrder: string := "23456789TJQKA"

  /** `CARD_ORDER.iter().position(|x| *x == card)` */
  function CardValue(card: char): (r: Option<nat>)
    ensures r.None? <==> card !in CardOrder
    ensures r.Some? ==> r.value < |CardOrder| && CardOrder[r.value] == card
  {
    IndexOf(CardOrder, card)
  }

  /** Every card of the hand is one of `CARD_ORDER`. */
  predicate Valid(hand: string) {
    forall c :: c in hand ==> c in CardOrder
  }

  const NoCard := "called `Option::unwrap()` on a `None` value"

  /**
   * The loop over `l.chars().zip(r.chars())`: the first pair of different
   * cards decides by their positions in `CARD_ORDER`; a card that is not
   * there panics, the left one first.
   */
  function CompareCards(l: string, r: string): Result<Ordering> {
    if |l| == 0 || |r| == 0 then Ok(Equal)
    else
      match CardValue(l[0])
      case None => Panic(NoCard)
      case Some(a) =>
        match CardValue(r[0])
        case None => Panic(NoCard)
        case Some(b) =>
          if a < b then Ok(Less) else if a > b then Ok(Greater) else CompareCards(l[1..], r[1..])
  }

  /** The comparator of `part1`: the weaker type first, then card by card. */
  function Compare(l: string, r: string): Result<Ordering> {
    var lt, rt := Position(HandTypeOf(l)), Position(HandTypeOf(r));
    if lt > rt then Ok(Less)
    else if lt == rt then CompareCards(l, r)
    else Ok(Greater)
  }

  function Flip(o: Ordering): Ordering {
    match o
    case Less => Greater
    case Equal => Equal
    case Greater => Less
  }

  lemma {:induction false} CompareCardsFlip(l: string, r: string)
    requires Valid(l) && Valid(r)
    ensures CompareCards(l, r).Ok? && CompareCards(r, l) == Ok(Flip(CompareCards(l, r).value))
  {
    if |l| > 0 && |r| > 0 {
      assert l[0] in l && r[0] in r;
      var a, b := CardValue(l[0]).value, CardValue(r[0]).value;
      if a == b {
        assert forall c :: c in l[1..] ==> c in l;
        assert forall c :: c in r[1..] ==> c in r;
        CompareCardsFlip(l[1..], r[1..]);
      }
    }
  }

  /**
   * On hands of valid cards the comparator never panics and is
   * antisymmetric: swapping the hands flips the answer.
   */
  lemma CompareFlip(l: string, r: string)
    requires Valid(l) && Valid(r)
    ensures Compare(l, r).Ok? && Compare(r, l) == Ok(Flip(Compare(l, r).value))
  {
    CompareCardsFlip(l, r);
  }

  /** A hand of valid cards compares equal to itself. */
  lemma {:induction false} CompareCardsSelf(h: string)
    requires Valid(h)
    ensures CompareCards(h, h) == Ok(Equal)
  {
    if |h| > 0 {
      assert h[0] in h;
      assert forall c :: c in h[1..] ==> c in h;
      CompareCardsSelf(h[1..]);
    }
  }

  // ---------------------------------------------------------------------
  // Sorting and winnings

  datatype Hand = Hand(cards: string, bid: nat)

  /** The comparator of a sort: any function from two hands to an ordering or a panic. */
  type Comparator = (string, string) -> Result<Ordering>

  /** Every hand is no stronger than the next one. */
  ghost predicate Sorted(cmp: Comparator, hands: seq<Hand>) {
    forall i, j :: 0 <= i < j < |hands| && j == i + 1 ==> cmp(hands[i].cards, hands[j].cards) != Ok(Greater)
  }

  /** Whenever `cmp` puts one of the hands after another, it puts the other before it. */
  predicate Antisymmetric(cmp: Comparator, hands: seq<Hand>) {
    forall g, h :: g in hands && h in hands && cmp(g.cards, h.cards) == Ok(Greater) ==> cmp(h.cards, g.cards) == Ok(Less)
  }

  /**
   * `x` moved down past every hand at the end that the comparator puts
   * after it; a panic of any comparison made on the way is the result.
   */
  function Insert(cmp: Comparator, sorted: seq<Hand>, x: Hand): (r: Result<seq<Hand>>)
    ensures r.Ok? ==> |r.value| == |sorted| + 1
    ensures r.Ok? ==> r.value[|sorted|] == x || (|sorted| > 0 && r.value[|sorted|] == sorted[|sorted| - 1])
  {
    if |sorted| == 0 then Ok([x])
    else
      var front, last := sorted[..|sorted| - 1], sorted[|sorted| - 1];
      match cmp(last.cards, x.cards)
      case Panic(why) => Panic(why)
      case Ok(o) =>
        if o == Greater then
          match Insert(cmp, front, x)
          case Panic(why) => Panic(why)
          case Ok(moved) => Ok(moved + [last])
        else Ok(sorted + [x])
  }

  /**
   * `sort_unstable_by` with comparator `cmp`, as an insertion sort that
   * keeps hands the comparator finds equal in input order; the first
   * comparison that panics makes the sort panic.
   */
  function Sort(cmp: Comparator, hands: seq<Hand>): (r: Result<seq<Hand>>)
    ensures r.Ok? ==> |r.value| == |hands|
  {
    if |hands| == 0 then Ok([])
    else
      match Sort(cmp, hands[..|hands| - 1])
      case Panic(why) => Panic(why)
      case Ok(sorted) => Insert(cmp, sorted, hands[|hands| - 1])
  }

  /** A single hand is never compared: its sort cannot panic, whatever its cards. */
  lemma SortSingle(cmp: Comparator, h: Hand)
    ensures Sort(cmp, [h]) == Ok([h])
  {
    assert [h][..0] == [];
  }

  /** Inserting adds `x` and loses nothing. */
  lemma {:induction false} InsertPermutes(cmp: Comparator, sorted: seq<Hand>, x: Hand)
    requires Insert(cmp, sorted, x).Ok?
    ensures multiset(Insert(cmp, sorted, x).value) == multiset(sorted) + multiset{x}
  {
    if |sorted| > 0 {
      var front, last := sorted[..|sorted| - 1], sorted[|sorted| - 1];
      assert sorted == front + [last];
      if cmp(last.cards, x.cards) == Ok(Greater) {
        InsertPermutes(cmp, front, x);
      }
    }
  }

  /** Inserting cannot panic when every comparison with `x` succeeds. */
  lemma {:induction false} InsertOk(cmp: Comparator, sorted: seq<Hand>, x: Hand)
    requires forall h :: h in sorted ==> cmp(h.cards, x.cards).Ok?
    ensures Insert(cmp, sorted, x).Ok?
  {
    if |sorted| > 0 {
      var front := sorted[..|sorted| - 1];
      assert sorted[|sorted| - 1] in sorted;
      assert forall h :: h in front ==> h in sorted;
      InsertOk(cmp, front, x);
    }
  }

  /** Sorting keeps every hand with its bid, each as often as before. */
  lemma {:induction false} SortPermutes(cmp: Comparator, hands: seq<Hand>)
    requires Sort(cmp, hands).Ok?
    ensures multiset(Sort(cmp, hands).value) == multiset(hands)
  {
    if |hands| > 0 {
      var front, x := hands[..|hands| - 1], hands[|hands| - 1];
      assert hands == front + [x];
      SortPermutes(cmp, front);
      InsertPermutes(cmp, Sort(cmp, front).value, x);
    }
  }

  /** The sort cannot panic when every comparison between two of the hands succeeds. */
  lemma {:induction false} SortOk(cmp: Comparator, hands: seq<Hand>)
    requires forall g, h :: g in hands && h in hands ==> cmp(g.cards, h.cards).Ok?
    ensures Sort(cmp, hands).Ok?
  {
    if |hands| > 0 {
      var front, x := hands[..|hands| - 1], hands[|hands| - 1];
      assert forall h :: h in front ==> h in hands;
      SortOk(cmp, front);
      SortPermutes(cmp, front);
      forall h | h in Sort(cmp, front).value
        ensures cmp(h.cards, x.cards).Ok?
      {
        assert h in multiset(Sort(cmp, front).value);
      }
      InsertOk(cmp, Sort(cmp, front).value, x);
    }
  }

  lemma SortedFront(cmp: Comparator, s: seq<Hand>)
    requires |s| > 0 && Sorted(cmp, s)
    ensures Sorted(cmp, s[..|s| - 1])
  {
    var front := s[..|s| - 1];
    forall i, j | 0 <= i < j < |front| && j == i + 1
      ensures cmp(front[i].cards, front[j].cards) != Ok(Greater)
    {
      assert front[i] == s[i] && front[j] == s[j];
    }
  }

  lemma SortedSnoc(cmp: Comparator, s: seq<Hand>, z: Hand)
    requires Sorted(cmp, s) && (|s| == 0 || cmp(s[|s| - 1].cards, z.cards) != Ok(Greater))
    ensures Sorted(cmp, s + [z])
  {
    var s' := s + [z];
    forall i, j | 0 <= i < j < |s'| && j == i + 1
      ensures cmp(s'[i].cards, s'[j].cards) != Ok(Greater)
    {
      if j < |s| {
        assert s'[i] == s[i] && s'[j] == s[j];
      }
    }
  }

  lemma {:induction false} InsertSorted(cmp: Comparator, sorted: seq<Hand>, x: Hand)
    requires Sorted(cmp, sorted) && Insert(cmp, sorted, x).Ok?
    requires forall h :: h in sorted && cmp(h.cards, x.cards) == Ok(Greater) ==> cmp(x.cards, h.cards) == Ok(Less)
    ensures Sorted(cmp, Insert(cmp, sorted, x).value)
  {
    if |sorted| > 0 {
      var front, last := sorted[..|sorted| - 1], sorted[|sorted| - 1];
      assert last in sorted;
      if cmp(last.cards, x.cards) == Ok(Greater) {
        assert forall h :: h in front ==> h in sorted;
        SortedFront(cmp, sorted);
        InsertSorted(cmp, front, x);
        var r := Insert(cmp, front, x).value;
        if r[|r| - 1] != x {
          SortedSnoc(cmp, front, last);
          assert sorted == front + [last];
        }
        SortedSnoc(cmp, r, last);
      } else {
        SortedSnoc(cmp, sorted, x);
      }
    } else {
      SortedSnoc(cmp, [], x);
    }
  }

  /**
   * A sort that does not panic keeps every hand with its bid, each as
   * often as before, and with an antisymmetric comparator leaves no hand
   * after one it puts later.
   */
  lemma {:induction false} SortSorted(cmp: Comparator, hands: seq<Hand>)
    requires Antisymmetric(cmp, hands) && Sort(cmp, hands).Ok?
    ensures multiset(Sort(cmp, hands).value) == multiset(hands)
    ensures Sorted(cmp, Sort(cmp, hands).value)
  {
    SortPermutes(cmp, hands);
    if |hands| > 0 {
      var front, x := hands[..|hands| - 1], hands[|hands| - 1];
      assert hands == front + [x];
      assert forall h :: h in front ==> h in hands;
      SortSorted(cmp, front);
      var sorted := Sort(cmp, front).value;
      forall h | h in sorted && cmp(h.cards, x.cards) == Ok(Greater)
        ensures cmp(x.cards, h.cards) == Ok(Less)
      {
        assert h in multiset(sorted);
        assert h in hands;
      }
      InsertSorted(cmp, sorted, x);
    }
  }

  /** `fold(0, |total, (rank, (_, bid))| total + bid * (rank + 1))` */
  function Winnings(hands: seq<Hand>): nat {
    if |hands| == 0 then 0 else Winnings(hands[..|hands| - 1]) + hands[|hands| - 1].bid * |hands|
  }

  // ---------------------------------------------------------------------
  // part1

  /** One line: the cards before the first space and the bid after it. */
  function ParseHand(line: string): Result<Hand> {
    var parts := Split(line, ' ');
    if |parts| < 2 then Panic("called `Option::unwrap()` on a `None` value")
    else
      match ParseNumber(parts[1])
      case Panic(why) => Panic(why)
      case Ok(bid) => Ok(Hand(parts[0], bid))
  }

  /**
   * `part1`: the winnings of the hands in comparator order; it panics when
   * the sort compares a hand holding a card outside `CARD_ORDER`.
   */
  function Part1(contents: string): Result<nat> {
    match MapResults(ParseHand, Lines(contents))
    case Panic(why) => Panic(why)
    case Ok(hands) =>
      match Sort(Compare, hands)
      case Panic(why) => Panic(why)
      case Ok(sorted) => Ok(Winnings(sorted))
  }

  /** Every hand holds valid cards. */
  predicate AllValid(hands: seq<Hand>) {
    forall h :: h in hands ==> Valid(h.cards)
  }

  /** When every hand holds valid cards, `part1` does not panic after parsing. */
  lemma Part1Valid(contents: string)
    requires MapResults(ParseHand, Lines(contents)).Ok?
    requires AllValid(MapResults(ParseHand, Lines(contents)).value)
    ensures Part1(contents).Ok?
  {
    var hands := MapResults(ParseHand, Lines(contents)).value;
    forall g, h | g in hands && h in hands
      ensures Compare(g.cards, h.cards).Ok?
    {
      CompareFlip(g.cards, h.cards);
    }
    SortOk(Compare, hands);
  }

  /**
   * A single hand is never compared, so its cards are never looked up:
   * `part1` of one parsed line is its bid, even with a card outside
   * `CARD_ORDER`.
   */
  lemma Part1OneHand(contents: string, h: Hand)
    requires MapResults(ParseHand, Lines(contents)) == Ok([h])
    ensures Part1(contents) == Ok(h.bid)
  {
    SortSingle(Compare, h);
    assert Winnings([h]) == Winnings([]) + h.bid;
  }

  /** The line "2345X 10" alone: its 'X' is never looked up, and the answer is its bid. */
  lemma Part1InvalidCard(line: string)
    requires line == "2345X 10"
    ensures Part1(line) == Ok(10)
  {
    var h := Hand("2345X", 10);
    InvalidCardLines(line);
    InvalidCardHand(line);
    MapResultsOne(line, h);
    Part1OneHand(line, h);
  }

  /** A single line that reads as `h` maps to `[h]`. */
  lemma MapResultsOne(line: string, h: Hand)
    requires Lines(line) == [line] && ParseHand(line) == Ok(h)
    ensures MapResults(ParseHand, Lines(line)) == Ok([h])
  {
    var none: seq<Hand> := [];
    assert [line][..0] == [];
    assert MapResults(ParseHand, [line][..0]) == Ok(none);
    assert none + [h] == [h];
  }

  /** "2345X 10" is one line. */
  lemma InvalidCardLines(line: string)
    requires line == "2345X 10"
    ensures Lines(line) == [line]
  {
    assert '\n' !in line;
    assert Split(line, '\n') == [line];
  }

  /** "2345X 10" reads as the cards "2345X" with bid 10. */
  lemma InvalidCardHand(line: string)
    requires line == "2345X 10"
    ensures ParseHand(line) == Ok(Hand("2345X", 10))
  {
    assert IndexOf(line, ' ') == Some(5);
    var cards, bid := line[..5], line[6..];
    assert cards == "2345X" && bid == "10";
    assert ' ' !in bid;
    assert Split(line, ' ') == [cards, bid];
    assert Decimal(10) == bid;
    ParseDecimal(10, USIZE_MAX);
  }

  /**
   * The answer of `part1` is the winnings of an ordering of the hands, each
   * with its own bid, that the comparator accepts.
   */
  lemma Part1Ordered(contents: string)
    requires Part1(contents).Ok?
    ensures exists ordered: seq<Hand> ::
              MapResults(ParseHand, Lines(contents)).Ok?
              && multiset(ordered) == multiset(MapResults(ParseHand, Lines(contents)).value)
              && Sorted(Compare, ordered) && Part1(contents).value == Winnings(ordered)
  {
    var hands := MapResults(ParseHand, Lines(contents)).value;
    CompareAntisymmetric(hands);
    SortSorted(Compare, hands);
    var ordered := Sort(Compare, hands).value;
    assert multiset(ordered) == multiset(hands) && Sorted(Compare, ordered);
  }

  /**
   * The comparator of `part1` is antisymmetric on all hands: a comparison
   * that does not panic has looked up only valid cards.
   */
  lemma CompareAntisymmetric(hands: seq<Hand>)
    ensures Antisymmetric(Compare, hands)
  {
    forall g, h | g in hands && h in hands && Compare(g.cards, h.cards) == Ok(Greater)
      ensures Compare(h.cards, g.cards) == Ok(Less)
    {
      CompareOkFlip(g.cards, h.cards);
    }
  }

  /** A comparison of hands that does not panic flips when the hands are swapped. */
  lemma CompareOkFlip(l: string, r: string)
    requires Compare(l, r).Ok?
    ensures Compare(r, l) == Ok(Flip(Compare(l, r).value))
  {
    if Position(HandTypeOf(l)) == Position(HandTypeOf(r)) {
      CompareCardsOkFlip(l, r);
    }
  }

  /** A card-by-card comparison that does not panic flips when the hands are swapped. */
  lemma {:induction false} CompareCardsOkFlip(l: string, r: string)
    requires CompareCards(l, r).Ok?
    ensures CompareCards(r, l) == Ok(Flip(CompareCards(l, r).value))
  {
    if |l| > 0 && |r| > 0 {
      var a, b := CardValue(l[0]).value, CardValue(r[0]).value;
      if a == b {
        CompareCardsOkFlip(l[1..], r[1..]);
      }
    }
  }
}
