/**
 * Day 5: seeds sent through seven almanac maps.  A map is a list of ranges
 * "destination source length"; part 1 sends single seed numbers through
 * the maps, part 2 sends ranges of seeds, splitting each range against the
 * map's ranges.  Both answers are the lowest location reached.
 *
 * The ranges of this program include both ends: a range of length n covers
 * n + 1 numbers, from its start to its start plus n.
 */
module Day05 {
  import opened Text

  /** `SeedRange`: the numbers `start..=start + length`. */
  datatype SeedRange = SeedRange(start: nat, length: nat)

  /** `MapRange`: sends `source_start + d` to `dest_start + d` for `d <= length`. */
  datatype MapRange = MapRange(sourceStart: nat, destStart: nat, length: nat)

  /** `SeedRange::end`. */
  function End(s: SeedRange): nat {
    s.start + s.length
  }

  /** `MapRange::source_end`. */
  function SourceEnd(r: MapRange): nat {
    r.sourceStart + r.length
  }

  /** `MapRange::dest_end`. */
  function DestEnd(r: MapRange): nat {
    r.destStart + r.length
  }

  /** `SeedRange::contains`: `checked_sub(start)` then `<= length`. */
  function SeedContains(s: SeedRange, x: nat): (b: bool)
    ensures b <==> s.start <= x <= End(s)
  {
    if x >= s.start then x - s.start <= s.length else false
  }

  /** `MapRange::contains`: `checked_sub(source_start)` then `<= length`. */
  function MapContains(r: MapRange, x: nat): (b: bool)
    ensures b <==> r.sourceStart <= x <= SourceEnd(r)
  {
    if x >= r.sourceStart then x - r.sourceStart <= r.length else false
  }

  /**
   * `MapRange::transform`: a number of the source range goes to the same
   * offset in the destination range; any other number is kept.
   */
  function Transform(r: MapRange, x: nat): (y: nat)
    ensures MapContains(r, x) ==> r.destStart <= y <= DestEnd(r) && y - r.destStart == x - r.sourceStart
    ensures !MapContains(r, x) ==> y == x
  {
    if x >= r.sourceStart && x - r.sourceStart <= r.length then r.destStart + (x - r.sourceStart) else x
  }

  // ---------------------------------------------------------------------
  // Part 1: single numbers

  /**
   * The closure in `part1`: the first range that contains `x` transforms it;
   * when none does, `x` is kept.
   */
  function Lookup(ranges: seq<MapRange>, x: nat): (y: nat)
    ensures (forall i :: 0 <= i < |ranges| ==> !MapContains(ranges[i], x)) ==> y == x
  {
    if |ranges| == 0 then x
    else if MapContains(ranges[0], x) then Transform(ranges[0], x)
    else Lookup(ranges[1..], x)
  }

  /** The first range containing `x` decides where it goes. */
  lemma {:induction false} LookupFirst(ranges: seq<MapRange>, x: nat, k: nat)
    requires k < |ranges| && MapContains(ranges[k], x)
    requires forall j :: 0 <= j < k ==> !MapContains(ranges[j], x)
    ensures Lookup(ranges, x) == ranges[k].destStart + (x - ranges[k].sourceStart)
  {
    if k > 0 {
      LookupFirst(ranges[1..], x, k - 1);
    }
  }

  /** A number sent through the maps in order. */
  function Through(sections: seq<seq<MapRange>>, x: nat): nat {
    if |sections| == 0 then x else Lookup(sections[|sections| - 1], Through(sections[..|sections| - 1], x))
  }

  /** The numbers at the end of the maps. */
  function Locations(sections: seq<seq<MapRange>>, seeds: seq<nat>): (r: seq<nat>)
    ensures |r| == |seeds| && forall k :: 0 <= k < |seeds| ==> r[k] == Through(sections, seeds[k])
  {
    seq(|seeds|, k requires 0 <= k < |seeds| => Through(sections, seeds[k]))
  }

  /** Moving every number through one more map gives the locations of the longer chain of maps. */
  lemma LocationsStep(sections: seq<seq<MapRange>>, ranges: seq<MapRange>, seeds: seq<nat>, values: seq<nat>, out: seq<nat>)
    requires values == Locations(sections, seeds)
    requires |out| == |values| && forall k :: 0 <= k < |values| ==> out[k] == Lookup(ranges, values[k])
    ensures out == Locations(sections + [ranges], seeds)
  {
    assert (sections + [ranges])[..|sections|] == sections;
  }

  /** One map applied to every seed: the `iter_mut().map(..).collect()` of `part1`. */
  method ApplyMap(ranges: seq<MapRange>, values: seq<nat>) returns (out: seq<nat>)
    ensures |out| == |values| && forall k :: 0 <= k < |values| ==> out[k] == Lookup(ranges, values[k])
  {
    out := [];
    for k := 0 to |values|
      invariant |out| == k && forall j :: 0 <= j < k ==> out[j] == Lookup(ranges, values[j])
    {
      out := out + [Lookup(ranges, values[k])];
    }
  }

  // ---------------------------------------------------------------------
  // Parsing

  /** `seeds_input.split(": ").nth(1).unwrap()`. */
  function SeedsText(block: string): Result<string> {
    var parts := SplitStr(block, ": ");
    if |parts| < 2 then Panic("called `Option::unwrap()` on a `None` value") else Ok(parts[1])
  }

  /** A map line "dest source length": the first three numbers, read in that order. */
  function ParseMapRange(line: string): Result<MapRange> {
    var tokens := Split(line, ' ');
    match ParseNumber(tokens[0])
    case Panic(why) => Panic(why)
    case Ok(dest) =>
      if |tokens| < 2 then Panic("called `Option::unwrap()` on a `None` value")
      else match ParseNumber(tokens[1])
        case Panic(why) => Panic(why)
        case Ok(source) =>
          if |tokens| < 3 then Panic("called `Option::unwrap()` on a `None` value")
          else match ParseNumber(tokens[2])
            case Panic(why) => Panic(why)
            case Ok(length) => Ok(MapRange(source, dest, length))
  }

  /** A map section: the lines after its header, up to the first empty one. */
  function ParseSection(section: string): Result<seq<MapRange>> {
    MapResults(ParseMapRange, TakeNonEmpty(Split(section, '\n')[1..]))
  }

  /** The number of blocks the program reads: the seeds and seven maps. */
  const Blocks: nat := 8

  function Min(a: nat, b: nat): nat {
    if a < b then a else b
  }

  /** The seeds sent through the map sections in order, or the first section that fails to parse. */
  function Send(seeds: seq<nat>, sections: seq<string>): Result<seq<nat>> {
    match MapResults(ParseSection, sections)
    case Panic(why) => Panic(why)
    case Ok(maps) => Ok(Locations(maps, seeds))
  }

  /** The loop of `part1` over the map sections: each is read, then every seed is moved through it. */
  method SendThrough(seeds: seq<nat>, sections: seq<string>) returns (r: Result<seq<nat>>)
    ensures r == Send(seeds, sections)
  {
    var values := seeds;
    ghost var maps: seq<seq<MapRange>> := [];
    for i := 0 to |sections|
      invariant MapResults(ParseSection, sections[..i]) == Ok(maps)
      invariant values == Locations(maps, seeds)
    {
      var ranges := ParseSection(sections[i]);
      if ranges.Panic? {
        MapResultsPanic(ParseSection, sections, i);
        return Panic(ranges.reason);
      }
      MapResultsStep(ParseSection, sections, i, maps, ranges.value);
      var next := ApplyMap(ranges.value, values);
      LocationsStep(maps, ranges.value, seeds, values, next);
      values := next;
      maps := maps + [ranges.value];
    }
    assert sections[..|sections|] == sections;
    return Ok(values);
  }

  /** The answer of part 1. */
  function Part1Of(contents: string): Result<nat> {
    var blocks := SplitStr(contents, "\n\n");
    match SeedsText(blocks[0])
    case Panic(why) => Panic(why)
    case Ok(text) =>
      match MapResults(ParseNumber, Split(text, ' '))
      case Panic(why) => Panic(why)
      case Ok(seeds) =>
        match Send(seeds, blocks[1..Min(Blocks, |blocks|)])
        case Panic(why) => Panic(why)
        case Ok(locations) =>
          if |blocks| < Blocks then Panic("called `Option::unwrap()` on a `None` value")
          else Ok(MinFrom(USIZE_MAX, locations))
  }

  /**
   * `part1`: reads the seeds, then for each of the seven maps reads its
   * section and moves every seed through it; the answer is the least
   * location, folded from `usize::MAX`.
   */
  method Part1(contents: string) returns (r: Result<nat>)
    ensures r == Part1Of(contents)
  {
    var blocks := SplitStr(contents, "\n\n");
    var text := SeedsText(blocks[0]);
    if text.Panic? {
      return Panic(text.reason);
    }
    var parsed := MapResults(ParseNumber, Split(text.value, ' '));
    if parsed.Panic? {
      return Panic(parsed.reason);
    }
    var locations := SendThrough(parsed.value, blocks[1..Min(Blocks, |blocks|)]);
    if locations.Panic? {
      return Panic(locations.reason);
    }
    if |blocks| < Blocks {
      return Panic("called `Option::unwrap()` on a `None` value");
    }
    return Ok(MinFrom(USIZE_MAX, locations.value));
  }

  // ---------------------------------------------------------------------
  // Part 2: splitting seed ranges

  /** The three ways a map range meets a seed range, in the order `partition_by` tests them. */
  predicate StartsInside(seed: SeedRange, r: MapRange) {
    SeedContains(seed, r.sourceStart)
  }

  predicate EndsInside(seed: SeedRange, r: MapRange) {
    !StartsInside(seed, r) && SeedContains(seed, SourceEnd(r))
  }

  predicate Encloses(seed: SeedRange, r: MapRange) {
    SourceEnd(r) > End(seed) && r.sourceStart < seed.start
  }

  /** The map range meets the seed range in one of the three ways. */
  predicate Touches(seed: SeedRange, r: MapRange) {
    StartsInside(seed, r) || EndsInside(seed, r) || Encloses(seed, r)
  }

  /**
   * What the first loop of `partition_by` has gathered: the mapped pieces
   * so far (`source_ranges` and `dest_ranges`), or the single range it
   * returned early, or its "Overlapping ranges exist?" panic.
   */
  datatype Collected = Pieces(sources: seq<SeedRange>, dests: seq<SeedRange>) | Enclosed(range: SeedRange) | Overlapping

  /** One turn of the first loop of `partition_by`. */
  function PieceOf(seed: SeedRange, r: MapRange, sources: seq<SeedRange>, dests: seq<SeedRange>): Collected {
    if SeedContains(seed, r.sourceStart) then
      var length := Min(End(seed), SourceEnd(r)) - r.sourceStart;
      Pieces(sources + [SeedRange(r.sourceStart, length)], dests + [SeedRange(r.destStart, length)])
    else if SeedContains(seed, SourceEnd(r)) then
      var length := SourceEnd(r) - seed.start;
      Pieces(sources + [SeedRange(seed.start, length)], dests + [SeedRange(DestEnd(r) - length, length)])
    else if SourceEnd(r) > End(seed) && r.sourceStart < seed.start then
      if |dests| > 0 then Overlapping
      else Enclosed(SeedRange(r.destStart + (seed.start - r.sourceStart), seed.length))
    else Pieces(sources, dests)
  }

  /** The first loop of `partition_by` over the map ranges, stopping at an early return. */
  function Collect(seed: SeedRange, ranges: seq<MapRange>): Collected {
    if |ranges| == 0 then Pieces([], [])
    else match Collect(seed, ranges[..|ranges| - 1])
      case Pieces(sources, dests) => PieceOf(seed, ranges[|ranges| - 1], sources, dests)
      case other => other
  }

  /** Once the loop has returned, later map ranges change nothing. */
  lemma {:induction false} CollectStays(seed: SeedRange, ranges: seq<MapRange>, k: nat)
    requires k <= |ranges| && !Collect(seed, ranges[..k]).Pieces?
    ensures Collect(seed, ranges) == Collect(seed, ranges[..k])
  {
    if k < |ranges| {
      var init := ranges[..|ranges| - 1];
      assert init[..k] == ranges[..k];
      CollectStays(seed, init, k);
    } else {
      assert ranges[..k] == ranges;
    }
  }

  /** Some map range contains the source piece's start and sends it to the mapped piece's start. */
  predicate MappedBy(ranges: seq<MapRange>, source: SeedRange, dest: SeedRange) {
    exists r :: r in ranges && MapContains(r, source.start) && dest.start == Transform(r, source.start)
  }

  /**
   * The pieces pair up: each source piece lies inside the seed range, its
   * mapped piece has the same length, and the mapped piece starts where
   * some map range sends the source piece's start.
   */
  lemma {:induction false} CollectPieces(seed: SeedRange, ranges: seq<MapRange>)
    requires Collect(seed, ranges).Pieces?
    ensures var c := Collect(seed, ranges); |c.sources| == |c.dests|
    ensures var c := Collect(seed, ranges);
      forall i :: 0 <= i < |c.sources| ==>
        c.sources[i].length == c.dests[i].length &&
        seed.start <= c.sources[i].start && End(c.sources[i]) <= End(seed) &&
        MappedBy(ranges, c.sources[i], c.dests[i])
  {
    if |ranges| > 0 {
      var init := ranges[..|ranges| - 1];
      var r := ranges[|ranges| - 1];
      CollectPieces(seed, init);
      var c := Collect(seed, init);
      var d := Collect(seed, ranges);
      var n := |c.sources|;
      assert d.sources[..n] == c.sources && d.dests[..n] == c.dests;
      forall i | 0 <= i < n
        ensures MappedBy(ranges, d.sources[i], d.dests[i])
      {
        assert d.sources[i] == c.sources[i] && d.dests[i] == c.dests[i];
        var q :| q in init && MapContains(q, c.sources[i].start) && c.dests[i].start == Transform(q, c.sources[i].start);
        assert q in ranges;
      }
      if |d.sources| > n {
        assert r in ranges && MapContains(r, d.sources[n].start) && d.dests[n].start == Transform(r, d.sources[n].start);
      }
    }
  }

  /** Nothing touched: the loop gathers no piece. */
  lemma {:induction false} CollectUntouched(seed: SeedRange, ranges: seq<MapRange>)
    requires forall i :: 0 <= i < |ranges| ==> !Touches(seed, ranges[i])
    ensures Collect(seed, ranges) == Pieces([], [])
  {
    if |ranges| > 0 {
      CollectUntouched(seed, ranges[..|ranges| - 1]);
    }
  }

  /** `sort_unstable_by` on the start: an insertion sort on starts. */
  function SortByStart(s: seq<SeedRange>): (r: seq<SeedRange>)
    ensures multiset(r) == multiset(s) && SortedByStart(r)
  {
    if |s| == 0 then []
    else
      assert s == [s[0]] + s[1..];
      Insert(s[0], SortByStart(s[1..]))
  }

  predicate SortedByStart(s: seq<SeedRange>) {
    forall i, j :: 0 <= i < j < |s| ==> s[i].start <= s[j].start
  }

  /** `x` placed before the first range that starts after it. */
  function Insert(x: SeedRange, sorted: seq<SeedRange>): (r: seq<SeedRange>)
    requires SortedByStart(sorted)
    ensures multiset(r) == multiset(sorted) + multiset{x} && SortedByStart(r)
    ensures |r| == |sorted| + 1 && (r[0] == x || (|sorted| > 0 && r[0] == sorted[0]))
  {
    if |sorted| == 0 || x.start <= sorted[0].start then
      SortedCons(x, sorted);
      [x] + sorted
    else
      var head, tail := sorted[0], sorted[1..];
      SortedTail(sorted);
      var rest := Insert(x, tail);
      assert sorted == [head] + tail;
      SortedCons(head, rest);
      [head] + rest
  }

  /** Dropping the first range keeps a sequence sorted. */
  lemma SortedTail(s: seq<SeedRange>)
    requires SortedByStart(s) && |s| > 0
    ensures SortedByStart(s[1..]) && forall i :: 0 <= i < |s| - 1 ==> s[0].start <= s[1..][i].start
  {
  }

  /** A range that starts no later than the first of a sorted sequence can go in front of it. */
  lemma SortedCons(a: SeedRange, s: seq<SeedRange>)
    requires SortedByStart(s) && (|s| > 0 ==> a.start <= s[0].start)
    ensures SortedByStart([a] + s)
  {
  }

  /**
   * The second loop of `partition_by` over the sorted source pieces: the
   * gaps pushed so far and `left_end`.  A gap is the stretch from the end of
   * one piece to the start of the next; a piece that starts before the
   * previous one ends makes `right_end - left_end` underflow.
   */
  function Gaps(start: nat, sorted: seq<SeedRange>): Result<(seq<SeedRange>, nat)> {
    if |sorted| == 0 then Ok(([], start))
    else match Gaps(start, sorted[..|sorted| - 1])
      case Panic(why) => Panic(why)
      case Ok(acc) =>
        var right := sorted[|sorted| - 1].start;
        if right < acc.1 then Panic("attempt to subtract with overflow")
        else
          var gaps := if right - acc.1 != 0 then acc.0 + [SeedRange(acc.1, right - acc.1)] else acc.0;
          Ok((gaps, End(sorted[|sorted| - 1])))
  }

  /** Once a prefix of the pieces panics, the whole loop panics the same way. */
  lemma {:induction false} GapsPanic(start: nat, sorted: seq<SeedRange>, k: nat)
    requires k <= |sorted| && Gaps(start, sorted[..k]).Panic?
    ensures Gaps(start, sorted) == Gaps(start, sorted[..k])
  {
    if k < |sorted| {
      var init := sorted[..|sorted| - 1];
      assert init[..k] == sorted[..k];
      GapsPanic(start, init, k);
    } else {
      assert sorted[..k] == sorted;
    }
  }

  /** The gap that fills the space just before piece `i`. */
  predicate GapBefore(start: nat, sorted: seq<SeedRange>, g: SeedRange, i: int) {
    0 <= i < |sorted| && g.length > 0 && g.start + g.length == sorted[i].start &&
    g.start == (if i == 0 then start else End(sorted[i - 1]))
  }

  /**
   * Every gap is a non-empty stretch that ends where a piece starts and
   * starts where the piece before it ends (or at the seed's start): nothing
   * after the last piece is ever emitted.
   */
  lemma {:induction false} GapsBetween(start: nat, sorted: seq<SeedRange>)
    requires Gaps(start, sorted).Ok?
    ensures Gaps(start, sorted).value.1 == if |sorted| == 0 then start else End(sorted[|sorted| - 1])
    ensures forall g :: g in Gaps(start, sorted).value.0 ==> exists i :: GapBefore(start, sorted, g, i)
  {
    if |sorted| > 0 {
      var init := sorted[..|sorted| - 1];
      GapsBetween(start, init);
      forall g | g in Gaps(start, sorted).value.0 ensures exists i :: GapBefore(start, sorted, g, i) {
        if g in Gaps(start, init).value.0 {
          var i :| GapBefore(start, init, g, i);
          assert GapBefore(start, sorted, g, i);
        } else {
          assert GapBefore(start, sorted, g, |sorted| - 1);
        }
      }
    }
  }

  /** `partition_by`: the seed range cut along the map ranges, as the program computes it. */
  function Partition(seed: SeedRange, ranges: seq<MapRange>): Result<seq<SeedRange>> {
    match Collect(seed, ranges)
    case Overlapping => Panic("Overlapping ranges exist?")
    case Enclosed(r) => Ok([r])
    case Pieces(sources, dests) =>
      if |dests| == 0 then Ok([seed])
      else match Gaps(seed.start, SortByStart(sources))
        case Panic(why) => Panic(why)
        case Ok(acc) => Ok(dests + acc.0)
  }

  /** A seed range no map range touches comes back unchanged. */
  lemma PartitionUntouched(seed: SeedRange, ranges: seq<MapRange>)
    requires forall i :: 0 <= i < |ranges| ==> !Touches(seed, ranges[i])
    ensures Partition(seed, ranges) == Ok([seed])
  {
    CollectUntouched(seed, ranges);
  }

  /**
   * A map range enclosing the seed range, met before any other touches it,
   * gives one range of the same length shifted by `dest_start - source_start`.
   */
  lemma PartitionEnclosed(seed: SeedRange, ranges: seq<MapRange>, k: nat)
    requires k < |ranges| && Encloses(seed, ranges[k])
    requires forall j :: 0 <= j < k ==> !Touches(seed, ranges[j])
    ensures Partition(seed, ranges) == Ok([SeedRange(ranges[k].destStart + (seed.start - ranges[k].sourceStart), seed.length)])
  {
    CollectUntouched(seed, ranges[..k]);
    assert ranges[..k + 1][..k] == ranges[..k];
    CollectStays(seed, ranges, k + 1);
  }

  /** A map range enclosing the seed range after a partial overlap was recorded: the panic. */
  lemma PartitionOverlapping(seed: SeedRange, ranges: seq<MapRange>, k: nat)
    requires k < |ranges| && Encloses(seed, ranges[k])
    requires Collect(seed, ranges[..k]).Pieces? && |Collect(seed, ranges[..k]).dests| > 0
    ensures Partition(seed, ranges) == Panic("Overlapping ranges exist?")
  {
    assert ranges[..k + 1][..k] == ranges[..k];
    CollectStays(seed, ranges, k + 1);
  }

  /**
   * The missing trailing gap: a map range covering only the low part of
   * `0..=10` gives the mapped piece and nothing for the numbers above it.
   */
  lemma PartitionDropsTail()
    ensures Partition(SeedRange(0, 10), [MapRange(0, 100, 5)]) == Ok([SeedRange(100, 5)])
  {
    var seed := SeedRange(0, 10);
    var ranges := [MapRange(0, 100, 5)];
    assert ranges[..0] == [];
    assert Collect(seed, ranges) == Pieces([SeedRange(0, 5)], [SeedRange(100, 5)]);
    assert SortByStart([SeedRange(0, 5)]) == [SeedRange(0, 5)];
    var one := [SeedRange(0, 5)];
    assert one[..0] == [];
    assert Gaps(0, one) == Ok(([], 5));
    assert [SeedRange(100, 5)] + [] == [SeedRange(100, 5)];
  }

  /** The first loop of `partition_by`, up to its early returns. */
  method GatherPieces(seed: SeedRange, ranges: seq<MapRange>) returns (c: Collected)
    ensures c == Collect(seed, ranges)
  {
    var sources: seq<SeedRange> := [];
    var dests: seq<SeedRange> := [];
    for i := 0 to |ranges|
      invariant Collect(seed, ranges[..i]) == Pieces(sources, dests)
    {
      assert ranges[..i + 1][..i] == ranges[..i] && ranges[..i + 1][i] == ranges[i];
      var range := ranges[i];
      if SeedContains(seed, range.sourceStart) {
        var rangeEnd := Min(End(seed), SourceEnd(range));
        var length := rangeEnd - range.sourceStart;
        sources := sources + [SeedRange(range.sourceStart, length)];
        dests := dests + [SeedRange(range.destStart, length)];
      } else if SeedContains(seed, SourceEnd(range)) {
        var length := SourceEnd(range) - seed.start;
        sources := sources + [SeedRange(seed.start, length)];
        dests := dests + [SeedRange(DestEnd(range) - length, length)];
      } else if SourceEnd(range) > End(seed) && range.sourceStart < seed.start {
        CollectStays(seed, ranges, i + 1);
        if |dests| != 0 {
          return Overlapping;
        }
        var leftOffset := seed.start - range.sourceStart;
        return Enclosed(SeedRange(range.destStart + leftOffset, seed.length));
      }
    }
    assert ranges[..|ranges|] == ranges;
    return Pieces(sources, dests);
  }

  /** The second loop of `partition_by`: the gaps between the sorted pieces and the final `left_end`. */
  method PushGaps(start: nat, sorted: seq<SeedRange>) returns (res: Result<(seq<SeedRange>, nat)>)
    ensures res == Gaps(start, sorted)
  {
    var gaps: seq<SeedRange> := [];
    var leftEnd := start;
    for j := 0 to |sorted|
      invariant Gaps(start, sorted[..j]) == Ok((gaps, leftEnd))
    {
      assert sorted[..j + 1][..j] == sorted[..j] && sorted[..j + 1][j] == sorted[j];
      var rightEnd := sorted[j].start;
      if rightEnd < leftEnd {
        GapsPanic(start, sorted, j + 1);
        return Panic("attempt to subtract with overflow");
      }
      var gapLength := rightEnd - leftEnd;
      if gapLength != 0 {
        gaps := gaps + [SeedRange(leftEnd, gapLength)];
      }
      leftEnd := End(sorted[j]);
    }
    assert sorted[..|sorted|] == sorted;
    return Ok((gaps, leftEnd));
  }

  /**
   * `partition_by`: gathers the mapped pieces, sorts the source pieces by
   * start, then appends the gaps between them to the mapped pieces.
   */
  method PartitionBy(seed: SeedRange, ranges: seq<MapRange>) returns (res: Result<seq<SeedRange>>)
    ensures res == Partition(seed, ranges)
  {
    var c := GatherPieces(seed, ranges);
    match c
    case Overlapping =>
      res := Panic("Overlapping ranges exist?");
    case Enclosed(r) =>
      res := Ok([r]);
    case Pieces(sources, dests) =>
      if |dests| == 0 {
        res := Ok([seed]);
      } else {
        var gaps := PushGaps(seed.start, SortByStart(sources));
        if gaps.Panic? {
          res := Panic(gaps.reason);
        } else {
          res := Ok(dests + gaps.value.0);
        }
      }
  }

  /** The seed ranges read in pairs "start length"; an odd count leaves a chunk without its length. */
  function ParseSeedRanges(tokens: seq<string>): Result<seq<SeedRange>>
    decreases |tokens|
  {
    if |tokens| == 0 then Ok([])
    else match ParseNumber(tokens[0])
      case Panic(why) => Panic(why)
      case Ok(start) =>
        if |tokens| < 2 then Panic("called `Option::unwrap()` on a `None` value")
        else match ParseNumber(tokens[1])
          case Panic(why) => Panic(why)
          case Ok(length) =>
            match ParseSeedRanges(tokens[2..])
            case Panic(why) => Panic(why)
            case Ok(rest) => Ok([SeedRange(start, length)] + rest)
  }

  /** Every seed range of one generation split against one map, the pieces concatenated in order. */
  function PartitionAll(seeds: seq<SeedRange>, ranges: seq<MapRange>): Result<seq<SeedRange>> {
    if |seeds| == 0 then Ok([])
    else match PartitionAll(seeds[..|seeds| - 1], ranges)
      case Panic(why) => Panic(why)
      case Ok(acc) =>
        match Partition(seeds[|seeds| - 1], ranges)
        case Panic(why) => Panic(why)
        case Ok(pieces) => Ok(acc + pieces)
  }

  lemma {:induction false} PartitionAllPanic(seeds: seq<SeedRange>, ranges: seq<MapRange>, k: nat)
    requires k <= |seeds| && PartitionAll(seeds[..k], ranges).Panic?
    ensures PartitionAll(seeds, ranges) == PartitionAll(seeds[..k], ranges)
  {
    if k < |seeds| {
      var init := seeds[..|seeds| - 1];
      assert init[..k] == seeds[..k];
      PartitionAllPanic(init, ranges, k);
    } else {
      assert seeds[..k] == seeds;
    }
  }

  lemma PartitionAllStep(seeds: seq<SeedRange>, ranges: seq<MapRange>, k: nat, acc: seq<SeedRange>, res: Result<seq<SeedRange>>)
    requires k < |seeds| && PartitionAll(seeds[..k], ranges) == Ok(acc) && Partition(seeds[k], ranges) == res
    ensures res.Ok? ==> PartitionAll(seeds[..k + 1], ranges) == Ok(acc + res.value)
    ensures res.Panic? ==> PartitionAll(seeds, ranges) == Panic(res.reason)
  {
    assert seeds[..k + 1][..k] == seeds[..k] && seeds[..k + 1][k] == seeds[k];
    if res.Panic? {
      PartitionAllPanic(seeds, ranges, k + 1);
    }
  }

  /** The loop `for seed in seeds { new_seeds.extend(seed.partition_by(&ranges)) }`. */
  method PartitionEach(seeds: seq<SeedRange>, ranges: seq<MapRange>) returns (res: Result<seq<SeedRange>>)
    ensures res == PartitionAll(seeds, ranges)
  {
    var newSeeds: seq<SeedRange> := [];
    for k := 0 to |seeds|
      invariant PartitionAll(seeds[..k], ranges) == Ok(newSeeds)
    {
      var pieces := PartitionBy(seeds[k], ranges);
      PartitionAllStep(seeds, ranges, k, newSeeds, pieces);
      if pieces.Panic? {
        return Panic(pieces.reason);
      }
      newSeeds := newSeeds + pieces.value;
    }
    assert seeds[..|seeds|] == seeds;
    return Ok(newSeeds);
  }

  /** The seed ranges after the map sections in order, each section read just before it is used. */
  function Evolve(seeds: seq<SeedRange>, sections: seq<string>): Result<seq<SeedRange>> {
    if |sections| == 0 then Ok(seeds)
    else match Evolve(seeds, sections[..|sections| - 1])
      case Panic(why) => Panic(why)
      case Ok(current) =>
        match ParseSection(sections[|sections| - 1])
        case Panic(why) => Panic(why)
        case Ok(ranges) => PartitionAll(current, ranges)
  }

  lemma {:induction false} EvolvePanic(seeds: seq<SeedRange>, sections: seq<string>, k: nat)
    requires k <= |sections| && Evolve(seeds, sections[..k]).Panic?
    ensures Evolve(seeds, sections) == Evolve(seeds, sections[..k])
  {
    if k < |sections| {
      var init := sections[..|sections| - 1];
      assert init[..k] == sections[..k];
      EvolvePanic(seeds, init, k);
    } else {
      assert sections[..k] == sections;
    }
  }

  /** The starts of the seed ranges. */
  function Starts(seeds: seq<SeedRange>): (r: seq<nat>)
    ensures |r| == |seeds| && forall k :: 0 <= k < |seeds| ==> r[k] == seeds[k].start
  {
    seq(|seeds|, k requires 0 <= k < |seeds| => seeds[k].start)
  }

  /** The answer of part 2. */
  function Part2Of(contents: string): Result<nat> {
    var blocks := SplitStr(contents, "\n\n");
    match SeedsText(blocks[0])
    case Panic(why) => Panic(why)
    case Ok(text) =>
      match ParseSeedRanges(Split(text, ' '))
      case Panic(why) => Panic(why)
      case Ok(seeds) =>
        match Evolve(seeds, blocks[1..Min(Blocks, |blocks|)])
        case Panic(why) => Panic(why)
        case Ok(final) =>
          if |blocks| < Blocks then Panic("called `Option::unwrap()` on a `None` value")
          else Ok(MinFrom(USIZE_MAX, Starts(final)))
  }

  /** The loop of `part2` over the map sections: each is read, then every seed range is split against it. */
  method EvolveEach(seeds: seq<SeedRange>, sections: seq<string>) returns (r: Result<seq<SeedRange>>)
    ensures r == Evolve(seeds, sections)
  {
    var current := seeds;
    for i := 0 to |sections|
      invariant Evolve(seeds, sections[..i]) == Ok(current)
    {
      assert sections[..i + 1][..i] == sections[..i] && sections[..i + 1][i] == sections[i];
      var ranges := ParseSection(sections[i]);
      if ranges.Panic? {
        EvolvePanic(seeds, sections, i + 1);
        return Panic(ranges.reason);
      }
      var next := PartitionEach(current, ranges.value);
      if next.Panic? {
        EvolvePanic(seeds, sections, i + 1);
        return Panic(next.reason);
      }
      current := next.value;
    }
    assert sections[..|sections|] == sections;
    return Ok(current);
  }

  /**
   * `part2`: reads the seed ranges, then for each of the seven maps reads its
   * section and replaces the ranges by their pieces; the answer is the least
   * start, folded from `usize::MAX`.
   */
  method Part2(contents: string) returns (r: Result<nat>)
    ensures r == Part2Of(contents)
  {
    var blocks := SplitStr(contents, "\n\n");
    var text := SeedsText(blocks[0]);
    if text.Panic? {
      return Panic(text.reason);
    }
    var parsed := ParseSeedRanges(Split(text.value, ' '));
    if parsed.Panic? {
      return Panic(parsed.reason);
    }
    var final := EvolveEach(parsed.value, blocks[1..Min(Blocks, |blocks|)]);
    if final.Panic? {
      return Panic(final.reason);
    }
    if |blocks| < Blocks {
      return Panic("called `Option::unwrap()` on a `None` value");
    }
    return Ok(MinFrom(USIZE_MAX, Starts(final.value)));
  }
}
