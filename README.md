# Advent of Code 2023 solutions, modelled in Dafny

This project models the puzzle solutions of an Advent of Code 2023 repository
written in Rust (`src/bin/dayNN.rs`, with the shared grid readers of
`src/utils.rs`), and proves what each solution computes. Every `panic!`,
`unwrap()` on `None` or `Err`, and failing index of the original becomes the
`Panic` case of a `Result` (module `Text`), so each error path is modelled
beside the answer.

- `Text` (text.dfy): the parts of Rust's `str` and integer parsing the
  solutions use: `split`, `lines`, `split_whitespace`, `parse::<usize>` and
  friends, over `seq<char>`. Each has its round-trip or its characterisation.
- `Grid` (utils.dfy): `read_2d_map` and `read_2d_map_to_u8`, which read a
  block of lines into a rectangular grid indexed `[y][x]`.
- Day 1 (`Day01`): calibration values from the first and last digit of
  each line. Part 2 also reads the spelled-out digits "one" to "nine".
- Day 2 (`Day02`): cube games. A game is possible when no round shows more
  cubes of a colour than the bag holds. The power of a game is the product
  of its colour maxima.
- Day 3 (`Day03`): gear ratios. Every number with a symbol next to it is
  added, including the source's saturated left edge.
- Day 4 (`Day04`): scratchcards. A card with k matches scores 2^(k-1),
  and numbers are compared as a set.
- Day 5 (`Day05`): the almanac. Seeds and seed ranges go through seven maps.
  The ranges of this program include both ends.
- Day 7 (`Day07`): camel cards. Hand types come from the two largest card
  counts. Ties are broken card by card, and the sum is of bid times rank.
- Day 9 (`Day09`): extrapolation of histories by repeated differences,
  forwards and backwards.
- Day 10 (`Day10`): the pipe maze. Two heads run from 'S' in opposite
  directions until they meet.
- Day 11 (`Day11`): cosmic expansion. This is the sum of Manhattan distances
  after empty rows and columns grow.
- Day 12 (`Day12`): hot springs. The table that counts the placements of
  the damaged groups.
- Day 13 (`Day13`): mirrors. A pattern's horizontal or vertical line of
  reflection.
- Day 14 (`Day14`): tilting the platform north and weighing the load, on
  arrays as the source does.
- Day 15 (`Day15`): the HASH algorithm and the HASHMAP of 256 lens boxes.
  The boxes form a class updated in place.
- Day 16 (`Day16`): beams through mirrors and splitters, simulated round by
  round, counting energised tiles.
- Day 17 (`Day17`, `Day17Search`): Dijkstra's algorithm over the city
  blocks (a `Solver` class), then a breadth-first search bounded by the
  distance Dijkstra found.
- Day 18 (`Day18`, `Day18Big`): the lagoon. Part 1 paints the trench cell
  by cell and digs the inside row by row (class `Lagoon`). Part 2 keeps only
  the corners in a max-heap and measures the area row by row (class
  `BigLagoon`).
- Day 19 (`Day19`): workflows sorting machine parts. Part 1 sums the
  accepted parts. Part 2 counts the accepted rating combinations by
  splitting ranges along the rules.

Quirks of the source are modelled as written, and lemmas state them: the
saturated windows of day 3, the inclusive ranges of day 5, and the widened
range split of day 19.

## Model

| member | source | states |
|---|---|---|
| Text.WrappingDec | src/bin/day03.rs:29 | `wrapping_sub(1)` gives `usize::MAX` at 0 and the predecessor otherwise |
| Text.IndexOf | src/bin/day02.rs:59 | `position(\|x\| x == c)`: none iff `c` is absent, otherwise its first occurrence |
| Text.CountChar | src/bin/day14.rs:15 | `matches(c).count()` is the number of occurrences of `c` (its multiplicity in the string): 0 iff `c` is absent, at most the length |
| Text.Split | src/bin/day02.rs:56 | `split(c)` gives at least one piece and no piece holds `c` |
| Text.SplitCount | src/bin/day02.rs:56 | `split(c)` gives one more piece than there are occurrences of `c` |
| Text.JoinSplit | src/bin/day02.rs:56 | joining the pieces of `split(c)` with `c` gives the string back |
| Text.SplitJoin | src/bin/day02.rs:56 | splitting pieces free of `c` joined with `c` gives the pieces back |
| Text.TakeNonEmpty | src/bin/day02.rs:56 | `take_while(\|x\| !x.is_empty())` is the longest prefix of non-empty pieces |
| Text.Lines | src/bin/day04.rs:15-17 | the line reader gives non-empty lines without `'\n'` |
| Text.SplitStr | src/bin/day04.rs:19 | `split(pat)` gives at least one piece |
| Text.SplitStrJoin | src/bin/day04.rs:19 | gluing the pieces of `split(pat)` back together with `pat` gives the string back |
| Text.SplitStrLeftmost | src/bin/day04.rs:19 | `split(pat)` cuts at leftmost matches: each piece but the last, followed by `pat`, first matches at its end, and the last piece holds no match |
| Text.LeftmostPiece | src/bin/day04.rs:19 | the piece before the leftmost occurrence, followed by `pat`, first matches at its end |
| Text.FindStrFirst | src/bin/day04.rs:19 | the search from an index finds `k` when `pat` starts at `k` and at no index in between |
| Text.SplitStrShorter | src/bin/day13.rs:65 | no piece of a split is longer than the string |
| Text.FindStr | src/bin/day04.rs:19 | the first occurrence of a pattern at or after an index, none iff there is none |
| Text.SplitWhitespace | src/bin/day04.rs:24 | `split_whitespace()` gives non-empty tokens without whitespace |
| Text.SplitWhitespaceCovers | src/bin/day04.rs:24 | the tokens, written one after another, are the string without its whitespace, and there is one token per maximal non-whitespace run |
| Text.TrimEnd | src/bin/day15.rs:22 | `trim_end()` removes exactly the trailing whitespace |
| Text.ParseNat | src/bin/day02.rs:18-22 | `parse::<usize>()` succeeds iff the text after one optional '+' is a non-empty run of decimal digits whose value is at most the type's maximum, and then gives that value |
| Text.ParseNatRejects | src/bin/day02.rs:18-22 | any character other than a digit, or a leading '+', makes the parse fail |
| Text.ParseDecimal | src/bin/day02.rs:18-22 | a number written in decimal, with or without a leading '+', parses back to itself |
| Text.DecimalRoundTrip | src/bin/day02.rs:18-22 | the digits of `Decimal(n)` denote n |
| Text.ParseIsize | src/bin/day09.rs:20 | `parse::<isize>()` gives a value in the `isize` range: after '-' it succeeds iff the rest is decimal digits worth at most 2^63 and gives their negation, otherwise it agrees with the unsigned parse bounded by `isize::MAX` |
| Text.ParseSignedDecimal | src/bin/day09.rs:20 | every `isize` written in decimal, with '-' when negative, parses back to itself |
| Text.ParseHex | src/bin/day18.rs:85-93 | `from_str_radix(s, 16)` succeeds iff the text after one optional '+' is a non-empty run of hexadecimal digits whose value is at most the type's maximum, and then gives that value |
| Text.HexDigit | src/bin/day18.rs:86-88 | the digit written for d is a hexadecimal digit worth d |
| Text.ParseHex2 | src/bin/day18.rs:86-88 | reading two hexadecimal digits into a `u8` gives back the byte they write |
| Text.SumEach | src/bin/day02.rs:57-82 | the accumulating loop `total += f(x)` returns exactly `SumResults`, stopping at the first panic |
| Text.SumResultsOk | src/bin/day02.rs:57-82 | the sum panics iff some item panics |
| Text.SumResultsStep | src/bin/day02.rs:79 | one more item adds its value |
| Text.SumResultsPanic | src/bin/day02.rs:57-82 | once a prefix panics, the sum panics the same way |
| Text.MapResults | src/bin/day05.rs:137-144 | `map(parse).collect()` keeps the length when nothing panics |
| Text.MapResultsOk | src/bin/day05.rs:137-144 | the map panics iff some item panics; otherwise item i is `f` of item i |
| Text.MapResultsStep | src/bin/day05.rs:137-144 | one more item appends its image |
| Text.MapResultsPanic | src/bin/day05.rs:137-144 | the first item that panics is the panic of the map |
| Text.MinFrom | src/bin/day05.rs:174-176 | `fold(init, min)` is at most `init` and every item, and equals one of them |
| Grid.Rows | src/utils.rs:37 | h rows of w items each, laid out from the first h w items |
| Grid.FromRowMajor | src/utils.rs:37 | `from_iter_row_major` succeeds exactly when there are at least h w items, and then lays out the first h w of them row by row (likewise lines 44-49) |
| Grid.ConcatIndex | src/utils.rs:37 | cell (y, x) of a rectangular map is item y w + x of its row-major layout |
| Grid.ConcatLength | src/utils.rs:37 | a rectangular map of h rows of w holds h w cells |
| Grid.Column | src/utils.rs:33-38 | column x of a map read top to bottom (`column_iter`) |
| Grid.Columns | src/utils.rs:33-38 | the columns of a map are the map transposed |
| Grid.Read2dMap | src/utils.rs:33-38 | `read_2d_map` succeeds exactly when there is a newline and the lines hold at least (newlines) times (first line's width) characters; the map is that size and holds the first of them row by row |
| Grid.DigitValues | src/utils.rs:45 | every cell a decimal digit exactly when the conversion succeeds, each to its value |
| Grid.ReadCells | src/utils.rs:44-49 | the conversion looks at no more cells than the lines hold |
| Grid.Read2dMapToU8 | src/utils.rs:40-50 | `read_2d_map_to_u8` has the shape of `read_2d_map`, each cell the value of its digit, and panics exactly when the shape fails or a cell it reads is not a digit |
| Grid.Read2dMapCell | src/utils.rs:33-38 | when the lines are as wide as the first, cell (y, x) is character x of line y |
| Grid.ReadersSameShape | src/utils.rs:33-50 | the two readers build maps of the same shape |
| Day01.FirstDigitIndex | src/bin/day01.rs:34-37 | `chars().find(is_ascii_digit)`: none iff the line holds no digit, otherwise an index holding a digit with no digit before it |
| Day01.LastDigitIndex | src/bin/day01.rs:40-44 | `chars().rev().find(..)`: none iff no digit, otherwise a digit with no digit after it |
| Day01.DigitOr0 | src/bin/day01.rs:37-39 | the digit found, or 0 for `unwrap_or('0')`, is at most 9 |
| Day01.Calibration1 | src/bin/day01.rs:34-47 | a line's part-1 value `10*first + last` is at most 99 |
| Day01.Calibration1NoDigit | src/bin/day01.rs:34-47 | a line without digits is worth 0 |
| Day01.Calibration1OneDigit | src/bin/day01.rs:34-47 | a line whose only digit is d is worth 11·d |
| Day01.Calibration1Digits | src/bin/day01.rs:34-47 | with first digit at i and last at k the line is worth `10*line[i] + line[k]` |
| Day01.SumCalibration1 | src/bin/day01.rs:29-47 | the part-1 fold over the `'\n'` pieces is at most 99 per line |
| Day01.WordFrom | src/bin/day01.rs:77-80 | `position(..)` over the words: the first word the rest of the line starts with, none iff no word matches |
| Day01.ValueAt | src/bin/day01.rs:74-83 | what the scans accept at one index (a digit's value or a word's index) is at most 9 |
| Day01.FirstValue | src/bin/day01.rs:72-84 | the part-2 first digit is at most 9 |
| Day01.FirstValueFrom | src/bin/day01.rs:73-84 | the forward scan from index i yields at most 9 |
| Day01.LastValue | src/bin/day01.rs:86-98 | the part-2 last digit is at most 9 |
| Day01.LastValueBelow | src/bin/day01.rs:87-98 | the backward scan below index i yields at most 9 |
| Day01.FirstValueAt | src/bin/day01.rs:73-84 | indices holding neither digit nor word are skipped by the forward scan |
| Day01.LastValueAt | src/bin/day01.rs:87-98 | indices holding neither digit nor word are skipped by the backward scan |
| Day01.ScanFirst | src/bin/day01.rs:72-84 | the `for … break` loop returns exactly `FirstValue(line)` |
| Day01.ScanLast | src/bin/day01.rs:86-98 | the reverse `for … break` loop returns exactly `LastValue(line)` |
| Day01.FirstValueFound | src/bin/day01.rs:73-84 | the forward scan stops at the first index holding a digit or starting a word and returns what is there |
| Day01.LastValueFound | src/bin/day01.rs:87-98 | the backward scan stops at the last such index and returns what is there |
| Day01.Calibration2 | src/bin/day01.rs:71-100 | a line's part-2 value is at most 99 |
| Day01.SumCalibration2 | src/bin/day01.rs:71-101 | the part-2 fold is at most 99 per line |
| Day01.Part1 | src/bin/day01.rs:29-61 | part 1 adds at most 99 for each `'\n'` piece, and there is one piece more than there are newlines |
| Day01.Part2 | src/bin/day01.rs:71 | part 2 is `SumCalibration2` of all the `'\n'` pieces, the empty last one included |
| Day01.SumScans | src/bin/day01.rs:71-101 | the fold running both scans on each piece equals `SumCalibration2` of the pieces |
| Day01.SentinelNeverFound | src/bin/day01.rs:67-69 | the sentinel `"\n\n\n\n"` at index 0 is never matched in a line without `'\n'` |
| Day01.WordValuesPositive | src/bin/day01.rs:67-83 | in a line without `'0'` and `'\n'`, whatever a scan accepts is in 1..9 |
| Day01.EightTwo | src/bin/day01.rs:72-100 | overlapping words: `"eightwo"` is worth 82 |
| Day01.Calibration2Nothing | src/bin/day01.rs:72-100 | a line where neither scan finds anything adds 0 |
| Day01.Calibration2NoWords | src/bin/day01.rs:34-47 | on a line without words, part 2 agrees with part 1 (likewise lines 72-100) |
| Day02.ParseDraw | src/bin/day02.rs:17-23 | a parsed draw's colour is the third `' '`-piece of its text (the first word is skipped) |
| Day02.ParseDrawRoundTrip | src/bin/day02.rs:17-23 | `" <quantity> <colour>"` parses back to that draw |
| Day02.AssignAllMeaning | src/bin/day02.rs:16-30 | applying the draws panics iff some draw is malformed or names an unknown colour; otherwise each colour holds its last mentioned quantity and an unmentioned one stays 0 |
| Day02.AssignKnown | src/bin/day02.rs:23-28 | a known colour sets only its own field |
| Day02.FromStr | src/bin/day02.rs:10-31 | the loop of `from_str` succeeds iff every draw is valid and leaves each colour at its last mention |
| Day02.AssignStep | src/bin/day02.rs:16-29 | one turn of the loop: a malformed draw panics, a good one is applied to the count so far |
| Day02.AssignAllPanic | src/bin/day02.rs:16-29 | once a prefix of the draws panics, the whole `from_str` panics |
| Day02.MergedWith | src/bin/day02.rs:33-39 | `merged_with` is an upper bound of both counts and below every common upper bound (the componentwise max) |
| Day02.MergedWithCommutative | src/bin/day02.rs:33-39 | `merged_with` is commutative |
| Day02.MergedWithAssociative | src/bin/day02.rs:33-39 | `merged_with` is associative |
| Day02.MergedWithIdempotent | src/bin/day02.rs:33-39 | `merged_with` is idempotent |
| Day02.MergedWithIdentity | src/bin/day02.rs:33-39 | the zero count the fold starts from is its identity (likewise lines 89-94) |
| Day02.Power | src/bin/day02.rs:41-43 | `get_power` is 0 iff some colour is 0 |
| Day02.RoundPossibleTrue | src/bin/day02.rs:62-77 | a round passes iff all its draws are well formed and within 12 red, 13 green, 14 blue |
| Day02.RoundPossibleFalse | src/bin/day02.rs:62-77 | a round fails iff the first draw that is not good is well formed but over its limit |
| Day02.RoundFalseWitness | src/bin/day02.rs:70-75 | a failing round has such a first over-limit draw |
| Day02.RoundFalseFrom | src/bin/day02.rs:70-75 | such a draw makes the round fail |
| Day02.GamePossibleTrue | src/bin/day02.rs:61-78 | `all(..)` over the rounds holds iff every round passes |
| Day02.GameScorePossible | src/bin/day02.rs:59-80 | a readable game line adds its id iff every round passes, else 0 |
| Day02.SumPossibleOk | src/bin/day02.rs:55-82 | part 1 panics iff some game line is unreadable |
| Day02.Part1 | src/bin/day02.rs:55-83 | the loop of `part1` panics iff some line is unreadable and otherwise sums the ids of the possible games |
| Day02.MergeRoundsOk | src/bin/day02.rs:89-96 | the fold panics iff some round's count panics |
| Day02.MergeRoundsIsLeastBound | src/bin/day02.rs:89-96 | the minimum set is the least count bounding the zero start and every round |
| Day02.BoundsAllTail | src/bin/day02.rs:89-96 | a bound of all the rounds bounds the first and the rest |
| Day02.SumPowersOk | src/bin/day02.rs:85-100 | part 2 panics iff some game's minimum set panics |
| Day02.Part2 | src/bin/day02.rs:85-101 | the loop of `part2` panics iff some minimum set does, and otherwise sums the powers |
| Day03.AnyNotDot | src/bin/day03.rs:14 | `chars().any(\|x\| x != '.')` holds iff some character is not `'.'` |
| Day03.CheckSliceSymbol | src/bin/day03.rs:12-15 | `check_slice_symbol` panics iff `start..stop` does not fit the slice, and otherwise holds iff some character in `[start, stop)` is not `'.'` |
| Day03.RunStart | src/bin/day03.rs:22-52 | the digits collected in `current_number_str` before index i form a maximal run ending at i |
| Day03.RunStartUnique | src/bin/day03.rs:22-52 | a run of digits that cannot be extended leftwards is the one `RunStart` gives |
| Day03.CompletedExactly | src/bin/day03.rs:23-53 | the numbers closed before index i are exactly the maximal digit runs ending before i |
| Day03.AllRunsExactly | src/bin/day03.rs:23-74 | the numbers of a line are exactly its maximal runs of digits |
| Day03.CompletedPrefix | src/bin/day03.rs:23-74 | the numbers closed before i are a prefix of all numbers of the line, in order |
| Day03.Counted | src/bin/day03.rs:27-42 | `has_neighboring_symbol` panics iff a window `[left-1, end]` (start saturated at 0) does not fit the line above or below; otherwise it holds iff the number is marked by the lines above/below or by its left or closing character (likewise lines 56-68) |
| Day03.RunValueMarked | src/bin/day03.rs:26-46 | a number adds its value iff it is marked, else 0; it panics iff the digits overflow a `usize` or a window does not fit (likewise lines 55-73) |
| Day03.TotalPanic | src/bin/day03.rs:20-76 | a panic on one line is the panic of `part1` |
| Day03.CloseNumber | src/bin/day03.rs:25-47 | closing the number that ends at `index` gives exactly its `RunValue` (likewise lines 54-74) |
| Day03.CloseAt | src/bin/day03.rs:24-49 | a non-digit closes the current number and adds its value to the sum of the numbers closed before |
| Day03.CloseLast | src/bin/day03.rs:54-74 | the number a line ends with completes the line's sum |
| Day03.ClosedRun | src/bin/day03.rs:24-48 | a non-digit right after a digit run closes exactly that run |
| Day03.LastRun | src/bin/day03.rs:54-56 | a line ending in a digit ends with the number that starts at its run |
| Day03.ScanLine | src/bin/day03.rs:22-74 | the scan of one line returns exactly the sum of its marked numbers (`LineSum`) or its first panic |
| Day03.EndRun | src/bin/day03.rs:24-49 | a non-digit closes the number collected so far, if any, adding its value to the sum or giving the line's panic, and starts an empty run |
| Day03.ExtendRun | src/bin/day03.rs:51 | a digit pushed onto `current_number_str` extends the run being collected and closes nothing |
| Day03.ScanStep | src/bin/day03.rs:24-52 | a digit extends the run; a non-digit ends it and closes a number only right after a digit |
| Day03.ScanEnd | src/bin/day03.rs:54 | a line not ending in a digit has closed all its numbers |
| Day03.AddLine | src/bin/day03.rs:20-75 | one round of the line loop adds that line's sum, or panics as `part1` does |
| Day03.Part1 | src/bin/day03.rs:17-77 | `part1` is the sum over lines before the first empty one of their marked numbers |
| Day04.Sections | src/bin/day04.rs:19-21 | the two number sections exist iff the card has a `": "` and its second piece a `" \| "`; otherwise the `unwrap`s panic |
| Day04.CardPoints | src/bin/day04.rs:19-42 | a card panics iff its sections are missing; it scores 0 iff the two token sets are disjoint, else `2^(k-1)` for k common tokens |
| Day04.PointsDouble | src/bin/day04.rs:37-41 | each match beyond the first k doubles the score |
| Day04.SplitWhitespaceAppend | src/bin/day04.rs:24-31 | splitting at whitespace distributes over a concatenation after whitespace |
| Day04.SplitWhitespaceEnd | src/bin/day04.rs:24-31 | a trailing space adds no token |
| Day04.RepeatIgnored | src/bin/day04.rs:23-31 | numbers are kept in a set: repeating a number already in a section changes nothing |
| Day04.Part1 | src/bin/day04.rs:14-44 | `part1` panics iff some line before the first empty one lacks its sections, else sums the card scores |
| Day05.SeedContains | src/bin/day05.rs:13-17 | `SeedRange::contains` holds iff `start <= x <= start + length`, both ends included |
| Day05.MapContains | src/bin/day05.rs:108-115 | `MapRange::contains` holds iff `source_start <= x <= source_start + length`, both ends included |
| Day05.Transform | src/bin/day05.rs:99-106 | a contained number keeps its offset into the destination range; any other number is returned unchanged |
| Day05.Lookup | src/bin/day05.rs:164-168 | a number no range contains is kept |
| Day05.LookupFirst | src/bin/day05.rs:164-168 | the first range containing the number transforms it |
| Day05.Locations | src/bin/day05.rs:146-172 | each seed's location is that seed sent through every map in order |
| Day05.LocationsStep | src/bin/day05.rs:160-171 | moving every value through one more map gives the locations of the longer chain |
| Day05.ApplyMap | src/bin/day05.rs:160-171 | the `iter_mut().map(..)` step sends every value through `Lookup` of the new map, keeping the count |
| Day05.SendThrough | src/bin/day05.rs:146-172 | the loop over the seven sections parses each (first parse failure panics) and moves all seeds through it |
| Day05.Part1 | src/bin/day05.rs:134-177 | `part1` is the least location folded from `usize::MAX`, or the panic of a missing or malformed block |
| Day05.CollectStays | src/bin/day05.rs:56-66 | once the first loop of `partition_by` has returned early, later ranges change nothing |
| Day05.CollectPieces | src/bin/day05.rs:26-53 | the recorded pieces pair up: each source piece lies in the seed range, its destination piece has the same length and starts where a map range sends it |
| Day05.CollectUntouched | src/bin/day05.rs:26-67 | no range touching the seed range records no piece |
| Day05.SortByStart | src/bin/day05.rs:72 | the sort of the source pieces is a permutation sorted by start |
| Day05.Insert | src/bin/day05.rs:72 | inserting into a sorted sequence keeps it sorted and adds exactly the new range |
| Day05.SortedTail | src/bin/day05.rs:72 | the rest of a sorted sequence is sorted and starts no earlier than its head |
| Day05.SortedCons | src/bin/day05.rs:72 | a range no later than the head of a sorted sequence can go in front |
| Day05.GapsPanic | src/bin/day05.rs:75-85 | once a prefix of the gap loop underflows, the whole loop panics the same way |
| Day05.GapsBetween | src/bin/day05.rs:73-85 | every emitted gap is non-empty and lies between the end of one piece (or the seed's start) and the start of the next; nothing after the last piece is emitted; `left_end` ends at the last piece's end |
| Day05.PartitionUntouched | src/bin/day05.rs:68-70 | a seed range no map range touches comes back as `[self]` |
| Day05.PartitionEnclosed | src/bin/day05.rs:56-66 | a range strictly enclosing the seed range, met before any partial overlap, gives one range of the same length shifted by `dest_start - source_start` |
| Day05.PartitionOverlapping | src/bin/day05.rs:56-59 | an enclosing range met after a partial overlap was recorded panics |
| Day05.PartitionDropsTail | src/bin/day05.rs:72-87 | the missing trailing gap: `0..=10` against a map of `0..=5` gives only the mapped piece |
| Day05.GatherPieces | src/bin/day05.rs:24-67 | the first loop of `partition_by` computes exactly `Collect` |
| Day05.PushGaps | src/bin/day05.rs:73-85 | the gap loop computes exactly `Gaps`, including the `usize` underflow panic |
| Day05.PartitionBy | src/bin/day05.rs:23-88 | `partition_by` computes exactly `Partition` |
| Day05.PartitionAllPanic | src/bin/day05.rs:209-212 | once a seed range panics, the whole loop panics the same way |
| Day05.PartitionAllStep | src/bin/day05.rs:209-212 | one more seed range extends the new seeds with its pieces, or panics |
| Day05.PartitionEach | src/bin/day05.rs:209-213 | the `extend` loop computes exactly `PartitionAll` |
| Day05.EvolvePanic | src/bin/day05.rs:194-214 | once a section panics, the whole loop panics the same way |
| Day05.Starts | src/bin/day05.rs:215-217 | the starts folded over are those of the final seed ranges, in order |
| Day05.EvolveEach | src/bin/day05.rs:194-214 | the section loop of `part2` computes exactly `Evolve` |
| Day05.Part2 | src/bin/day05.rs:179-218 | `part2` is the least start of the final ranges folded from `usize::MAX`, or the first panic |
| Day07.Position | src/bin/day07.rs:15-24 | the derived `PartialOrd` compares declaration positions: `FiveKind` alone is the least, `HighCard` the greatest of seven |
| Day07.PositionInjective | src/bin/day07.rs:15-24 | distinct variants have distinct positions, so the derived order is total |
| Day07.Counts | src/bin/day07.rs:31 | `chars().counts()` maps exactly the cards of the hand to their number of occurrences |
| Day07.Distinct | src/bin/day07.rs:31 | the cards of a hand, each once (likewise line 36) |
| Day07.TopTwoRanked | src/bin/day07.rs:32-46 | the loop ends with the largest count and the largest count among the other cards |
| Day07.RankedUnique | src/bin/day07.rs:32-46 | these two counts are determined by the counts alone |
| Day07.TopTwoAnyOrder | src/bin/day07.rs:36-46 | the result of the top-two loop is the same for every iteration order of the `HashMap` |
| Day07.HandTypeRanked | src/bin/day07.rs:30-66 | the hand type is read off the largest count and the second largest count |
| Day07.GetHandType | src/bin/day07.rs:30-66 | the loop of `get_hand_type`, in any iteration order, returns `HandTypeOf(hand)` (5→FiveKind, 4→FourKind, 3/2→FullHouse, 3→ThreeKind, 2/2→TwoPair, 2→OnePair, else HighCard) |
| Day07.CardValue | src/bin/day07.rs:26-28 | `CARD_ORDER.position(..)` is none iff the card is not one of the 13, otherwise its index (likewise lines 88-89) |
| Day07.CompareCardsFlip | src/bin/day07.rs:87-95 | comparing valid hands card by card never panics, and swapping the hands flips the answer |
| Day07.CompareFlip | src/bin/day07.rs:81-99 | on valid hands the comparator never panics and is antisymmetric |
| Day07.CompareCardsSelf | src/bin/day07.rs:87-95 | a valid hand compares equal to itself |
| Day07.Insert | src/bin/day07.rs:81 | inserting moves the new hand down past the hands the comparator puts after it, giving one hand more, or the panic of a comparison it makes |
| Day07.InsertOk | src/bin/day07.rs:81 | inserting cannot panic when every comparison with the new hand succeeds |
| Day07.InsertPermutes | src/bin/day07.rs:81 | an insertion that does not panic adds the hand and loses nothing |
| Day07.SortedFront | src/bin/day07.rs:81 | a prefix of a sorted sequence is sorted |
| Day07.SortedSnoc | src/bin/day07.rs:81 | a hand not before the last one extends a sorted sequence |
| Day07.InsertSorted | src/bin/day07.rs:81 | an insertion that does not panic keeps a sequence sorted under an antisymmetric comparator |
| Day07.Sort | src/bin/day07.rs:81-99 | the sort gives back as many hands as it was given, or the panic of the first comparison that panics |
| Day07.SortSingle | src/bin/day07.rs:81 | a single hand is never compared, so its sort cannot panic |
| Day07.SortPermutes | src/bin/day07.rs:81 | a sort that does not panic is a permutation of the hands with their bids |
| Day07.SortOk | src/bin/day07.rs:81 | the sort cannot panic when every comparison between two of the hands succeeds |
| Day07.SortSorted | src/bin/day07.rs:81-99 | a sort that does not panic is a permutation of the hands with their bids, sorted by the comparator |
| Day07.Part1Ordered | src/bin/day07.rs:68-106 | `part1` is the sum of `bid * (rank + 1)` over an ordering of the parsed hands that the comparator accepts |
| Day07.CompareAntisymmetric | src/bin/day07.rs:81-99 | the comparator is antisymmetric on any hands: whenever it puts one hand after another without panicking, it puts the other before it |
| Day07.CompareOkFlip | src/bin/day07.rs:81-99 | a comparison of hands that does not panic flips when the hands are swapped, whatever cards they hold |
| Day07.CompareCardsOkFlip | src/bin/day07.rs:87-95 | a card-by-card comparison that does not panic flips when the hands are swapped |
| Day07.Part1Valid | src/bin/day07.rs:68-106 | when every parsed hand holds cards of `CARD_ORDER`, `part1` does not panic |
| Day07.Part1OneHand | src/bin/day07.rs:68-106 | with a single parsed hand nothing is compared: `part1` is its bid, whatever its cards |
| Day07.Part1InvalidCard | src/bin/day07.rs:68-106 | the input "2345X 10" gives 10, although 'X' is not a card |
| Day07.MapResultsOne | src/bin/day07.rs:69-79 | a single line that reads as a hand maps to that one hand |
| Day07.InvalidCardLines | src/bin/day07.rs:70-71 | "2345X 10" is one line |
| Day07.InvalidCardHand | src/bin/day07.rs:72-78 | "2345X 10" reads as the cards "2345X" with bid 10 |
| Day09.AllZeroIndex | src/bin/day09.rs:25 | `iter().all(\|x\| *x == 0)` holds iff every element is 0 (likewise line 46) |
| Day09.Diffs | src/bin/day09.rs:26 | `map_windows(\|[x, y]\| y - x)` is one shorter than a non-empty sequence (likewise line 47) |
| Day09.DiffsPrefixSum | src/bin/day09.rs:26 | the differences lose only the first value: element i is the first plus the first i differences (likewise line 47) |
| Day09.DiffsZero | src/bin/day09.rs:25-26 | the differences are all zero iff the values are all equal |
| Day09.SumZero | src/bin/day09.rs:29 | a row of zeros sums to 0 |
| Day09.SingleNonzeroPanics | src/bin/day09.rs:24-28 | a single nonzero value empties before reaching zeros, so both parts panic (likewise lines 45-49) |
| Day09.ConstantPredicts | src/bin/day09.rs:24-29 | a history of one repeated nonzero value predicts that value both ways (likewise lines 45-50) |
| Day09.DiffsReverse | src/bin/day09.rs:26 | the differences of the reversed values are the negated reversed differences (likewise line 47) |
| Day09.DiffsNegate | src/bin/day09.rs:26 | the differences of negated values are the negated differences (likewise line 47) |
| Day09.NextNegate | src/bin/day09.rs:23-29 | extrapolating negated values gives the negated prediction, panicking alike |
| Day09.PrevIsNextReversed | src/bin/day09.rs:23-29 | `part2`'s prediction before a history is `part1`'s prediction after the reversed history, with the same panics (likewise lines 44-50) |
| Day09.AllZeroReverse | src/bin/day09.rs:25 | reversing keeps a row all-zero or not (likewise line 46) |
| Day09.PrevUnfold | src/bin/day09.rs:45-50 | one level of the backward prediction: the first value minus the deeper prediction |
| Day09.NextUnfold | src/bin/day09.rs:24-29 | one level of the forward prediction: the last value plus the deeper prediction |
| Day09.RevFoldSnoc | src/bin/day09.rs:50 | the reversed fold `acc' = first - acc` takes the last first value first |
| Day09.FoldIntoStep | src/bin/day09.rs:46-50 | one more row of differences moves one more first value into the fold |
| Day09.AddToStep | src/bin/day09.rs:25-29 | one more row of differences moves one more last value into the sum |
| Day09.Extrapolate | src/bin/day09.rs:23-29 | the `while` loop collecting `last_numbers` and summing them returns exactly `NextValue` (sum of the last element of every row down to the all-zero row, or the panic of an emptied row) |
| Day09.ExtrapolateBack | src/bin/day09.rs:44-50 | the loop collecting `first_numbers` and folding them in reverse returns exactly `PrevValue` |
| Day09.TotalNext | src/bin/day09.rs:30 | one more line adds its prediction (likewise line 52) |
| Day09.TotalStop | src/bin/day09.rs:17-31 | the first line that panics is the panic of the part |
| Day09.TotalPanic | src/bin/day09.rs:17-31 | once some lines panic, the total over more lines panics the same way |
| Day09.PredictLine | src/bin/day09.rs:18-30 | a line's tokens parsed as `isize` (panicking on a bad one) and extrapolated the part's way (likewise lines 39-52) |
| Day09.Solve | src/bin/day09.rs:14-33 | the line loop over the non-empty lines returns the sum of the predictions or the first panic (likewise lines 35-55) |
| Day09.SolveLines | src/bin/day09.rs:17-31 | the loop over the lines returns exactly `Total` |
| Day09.AddLine | src/bin/day09.rs:17-31 | one turn adds line i's prediction to the running total, or is the part's panic |
| Day09.Part1 | src/bin/day09.rs:14-33 | `part1` is the sum of the forward predictions |
| Day09.Part2 | src/bin/day09.rs:35-55 | `part2` is the sum of the backward predictions |
| Day10.West | src/bin/day10.rs:19-22 | `west` is none iff x is 0, otherwise the adjacent tile to the west |
| Day10.North | src/bin/day10.rs:23-26 | `north` is none iff y is 0, otherwise the adjacent tile to the north |
| Day10.East | src/bin/day10.rs:27-30 | `east` fails only at `usize::MAX`, otherwise the adjacent tile to the east |
| Day10.South | src/bin/day10.rs:31-34 | `south` fails only at `usize::MAX`, otherwise the adjacent tile to the south |
| Day10.EastUndoesWest | src/bin/day10.rs:19-30 | a step east undoes a step west and the other way round |
| Day10.PipeEnds | src/bin/day10.rs:64-71 | the pipe table: None iff the tile opens in no direction; a panic iff the pipe opens off the map edge; otherwise two distinct ends, exactly the tiles the pipe leads to (likewise line 85) |
| Day10.Get | src/bin/day10.rs:59-61 | `get` is the tile at a position, none iff outside the map |
| Day10.ReadMap | src/bin/day10.rs:41-48 | `PipeMap::new` succeeds iff there is a line and the lines hold at least height·width tiles; the map is height × width |
| Day10.ReadMapRect | src/bin/day10.rs:41-48 | lines of one width are read as they are |
| Day10.RowsConcat | src/bin/day10.rs:44-46 | cutting the row-major layout into rows gives the map back |
| Day10.StartFrom | src/bin/day10.rs:50-57 | the first `'S'` in reading order, or none when there is none |
| Day10.GetStartingPosition | src/bin/day10.rs:50-57 | the row loop of `get_starting_position` returns exactly the first `'S'` in reading order |
| Day10.Flatten | src/bin/day10.rs:75 | `flatten()` keeps exactly the present values, without repeating distinct ones |
| Day10.Neighbours | src/bin/day10.rs:73-75 | the neighbours it checks are distinct and adjacent |
| Day10.Connected | src/bin/day10.rs:75-81 | the loop keeps exactly the neighbours whose pipes point back, panicking iff probing one panics |
| Day10.StartEnds | src/bin/day10.rs:72-84 | `'S'` connects to two distinct adjacent tiles, exactly the neighbours that point back at it (the `assert_eq!` fails otherwise) |
| Day10.PairOf | src/bin/day10.rs:82-83 | two distinct connected tiles and nothing else |
| Day10.NextPositions | src/bin/day10.rs:63-87 | `get_next_positions` gives two distinct adjacent tiles, and for `'S'` the ends `StartEnds` finds |
| Day10.NextPosition | src/bin/day10.rs:89-92 | `get_next_position` gives the end of the pipe that is not `previous` (the first end when neither is), an adjacent tile |
| Day10.WalkAdjacent | src/bin/day10.rs:102-122 | every move of a head goes to a neighbouring tile |
| Day10.FirstMeetingUnique | src/bin/day10.rs:102-122 | the heads first meet at one move count only |
| Day10.FarthestDistance | src/bin/day10.rs:94-123 | `get_farthest_distance_on_loop` returns the move count at which the heads first meet, or panics when the start cannot be found or connected, or they do not meet within the bound |
| Day10.Race | src/bin/day10.rs:99-122 | the loop returns the first move count at which one head lands on the other, or no meeting exists up to the bound |
| Day10.NoMeetingYet | src/bin/day10.rs:102-122 | rounds that all passed leave no first meeting so far |
| Day10.NeverMeets | src/bin/day10.rs:104-106 | once the left head cannot move, the heads never meet |
| Day10.NeverMeetsRight | src/bin/day10.rs:113-115 | once the right head cannot move after the left head missed it, the heads never meet |
| Day10.Part1 | src/bin/day10.rs:126-130 | `part1` reads the map from the lines and answers the first meeting count, with the same panic cases |
| Day11.AbsDiff | src/bin/day11.rs:20 | `abs_diff` is the gap between the two values in either order |
| Day11.DistanceMetric | src/bin/day11.rs:19-21 | `distance_from` is symmetric and 0 exactly between equal coordinates |
| Day11.DistanceTriangle | src/bin/day11.rs:19-21 | `distance_from` obeys the triangle inequality |
| Day11.Indices | src/bin/day11.rs:34-38 | `enumerate().filter(..).map(index)` lists exactly the marked indices, strictly ascending (likewise lines 53-58) |
| Day11.IndicesPrefix | src/bin/day11.rs:34-38 | the marked indices below v come first, and all later ones are at least v |
| Day11.CountBelow | src/bin/day11.rs:62-69 | `take_while(\|i\| *i < v).count()` counts the leading items below v, stopping at the first that is not |
| Day11.CountBelowExact | src/bin/day11.rs:62-69 | a prefix below v followed by an item that is not is what is counted |
| Day11.CountBelowMonotone | src/bin/day11.rs:62-69 | a larger bound never counts less |
| Day11.CountBelowIndices | src/bin/day11.rs:62-69 | on an ascending index list the count is the number of marked indices below v |
| Day11.HashMask | src/bin/day11.rs:27-29 | one mark per character |
| Day11.RowStarsExactly | src/bin/day11.rs:46-50 | the galaxies of row y are exactly its `'#'` characters |
| Day11.StarsExactly | src/bin/day11.rs:45-51 | the galaxies are exactly the positions of the `'#'` characters |
| Day11.RowStarsStep | src/bin/day11.rs:46-50 | one more character adds a galaxy iff it is `'#'` |
| Day11.FindStars | src/bin/day11.rs:43-51 | the nested collection loop returns exactly `Stars(lines)`, in reading order |
| Day11.RowMask | src/bin/day11.rs:53-58 | one mark per line, set iff the line holds only `'.'` |
| Day11.ColumnMask | src/bin/day11.rs:25-32 | one mark per column of the first line's width, set iff no line has a galaxy there |
| Day11.BlankCols | src/bin/day11.rs:24-39 | `get_blank_col_indices` panics iff there is no line or a galaxy lies beyond the first line's width; otherwise the empty columns ascending |
| Day11.MarkLine | src/bin/day11.rs:27-31 | marking one line clears exactly the columns with a galaxy in it, and fails iff a galaxy lies beyond the vector |
| Day11.GetBlankCols | src/bin/day11.rs:24-39 | `get_blank_col_indices` over the `array` of marks returns exactly `BlankCols` |
| Day11.ExpandRows | src/bin/day11.rs:62-65 | a galaxy moves down by `extra` times the number of empty rows above it (likewise lines 71, 106-109, 115) |
| Day11.ExpandCols | src/bin/day11.rs:66-70 | a galaxy moves right by `extra` times the number of empty columns left of it (likewise lines 110-114) |
| Day11.ExpandOrder | src/bin/day11.rs:61-72 | expansion keeps the strict order of galaxies along each axis |
| Day11.ExpandAll | src/bin/day11.rs:61-72 | every galaxy expanded, in place |
| Day11.MoveStars | src/bin/day11.rs:61-72 | the `iter_mut` loop returns exactly `ExpandAll` |
| Day11.CrossCons | src/bin/day11.rs:76-80 | the all-pairs sum splits off one galaxy |
| Day11.PairSumHalf | src/bin/day11.rs:76-80 | each unordered pair is counted once: the sum over ordered pairs is twice `PairSum` |
| Day11.SumDistances | src/bin/day11.rs:74-80 | the nested loop with `skip(index + 1)` returns the sum over pairs i < j |
| Day11.Solve | src/bin/day11.rs:41-83 | the shared body returns the pair sum of the expanded galaxies, or the panic of `get_blank_col_indices` |
| Day11.Part1 | src/bin/day11.rs:41-83 | `part1`: each empty row and column counts twice |
| Day11.Part2 | src/bin/day11.rs:85-127 | `part2`: each empty row and column counts a million times |
| Day12.CountFits | src/bin/day12.rs:17-27 | the starts below n where a group fits are at most n |
| Day12.Scanned | src/bin/day12.rs:28-30 | the scan looks at the starts up to and including the first `'#'`, and no further |
| Day12.Ways | src/bin/day12.rs:15-33 | `ways_to_fit` is at most the length of the row |
| Day12.WaysToFit | src/bin/day12.rs:15-33 | the loop with its early return counts exactly the starts up to the first `'#'` where the spring may be damaged, the window of g is in bounds and may all be damaged, and no `'#'` follows it |
| Day12.CountFitsTooLong | src/bin/day12.rs:19-21 | a group longer than the row fits at no start |
| Day12.WaysTooLong | src/bin/day12.rs:19-21 | `ways_to_fit` is 0 when the group is longer than the row (likewise lines 139-140) |
| Day12.FitsAt | src/bin/day12.rs:18-24 | the three conditions of the scan, checked cell by cell, make a start count |
| Day12.WaysExampleTwo | src/bin/day12.rs:151 | the unit test `ways_to_fit("?#??...", 3) == 2` |
| Day12.WaysExampleOne | src/bin/day12.rs:145 | the unit test `ways_to_fit("???.###", 3) == 1` |
| Day12.NoFitBeforeDot | src/bin/day12.rs:145 | in `"???.###"` no group of 3 fits at the first four starts |
| Day12.Row | src/bin/day12.rs:56-78 | one memo cell per prefix of the row |
| Day12.BestIsMax | src/bin/day12.rs:65-74 | the cell is the maximum (not the sum) of the candidates `previous * ways_to_fit(line[i+2..x+1])` over split points not skipped (`previous == 0` or `line[i+1] == '#'`): none is larger and, unless 0, it is one of them |
| Day12.BestSplit | src/bin/day12.rs:65-74 | the split-point loop over the previous memo row returns exactly `Best` |
| Day12.CountConfigurations | src/bin/day12.rs:53-80 | `count_configurations` over an `array2` returns the last cell of the last row, panicking on an empty row or no groups |
| Day12.FillRow | src/bin/day12.rs:64-76 | filling row y from column 2 on out of row y-1 gives exactly `Row(y)` and changes no other row |
| Day12.AddRow | src/bin/day12.rs:85-97 | one round of the `part1` loop adds the row's count, or is the panic of `part1` |
| Day12.Part1 | src/bin/day12.rs:82-99 | `part1` is the sum of the counts of the lines, panicking at the first bad line |
| Day13.FirstMirror | src/bin/day13.rs:13-15 | the `find` over `1..n`: a found index is in range and the lines reflect across it, and no smaller index from the start on does (likewise lines 39-41) |
| Day13.ColumnMirrorRows | src/bin/day13.rs:42-62 | the columns of a pattern reflect across column line `c` exactly when every row reflects there |
| Day13.CheckMirrorRow | src/bin/day13.rs:17-37 | the outward walk with the wrapping upper index is true exactly when the rows reflect across row line `r` |
| Day13.CheckMirrorCol | src/bin/day13.rs:42-62 | the same walk over columns is true exactly when the columns reflect across column line `c` |
| Day13.FindMirrorRow | src/bin/day13.rs:13-15 | the first row line from 1 on across which the pattern reflects, or none |
| Day13.FindMirrorCol | src/bin/day13.rs:39-41 | the first column line from 1 on across which the pattern reflects, or none |
| Day13.ReadPattern | src/bin/day13.rs:68-75 | reading succeeds exactly when the pattern has a newline and its lines hold enough cells for (newlines + 1) rows as wide as the first line, and then gives a rectangle of that size |
| Day13.SplitEndsEmpty | src/bin/day13.rs:71 | splitting a pattern that ends in a newline gives an empty last line |
| Day13.ConcatShort | src/bin/day13.rs:70-74 | lines no wider than the first, the last one empty, cannot fill one row per newline plus one |
| Day13.TrailingNewlinePanics | src/bin/day13.rs:65-75 | a pattern ending in a newline (the last one of a file with a final newline) makes the `expect` panic when no line is wider than the first |
| Day13.Summarize | src/bin/day13.rs:68-83 | one pattern adds 100 times its first reflecting row line, else its first reflecting column line, else nothing, or panics if unreadable |
| Day13.AddSummary | src/bin/day13.rs:67-84 | one round of the pattern loop extends the running sum by one pattern, or is the panic of `part1` |
| Day13.SummarizeAll | src/bin/day13.rs:66-85 | the loop adds up the pattern summaries, stopping at the first panic |
| Day13.Part1 | src/bin/day13.rs:64-86 | `part1` sums the summaries of the non-empty pieces between blank lines |
| Day14.Rounds | src/bin/day14.rs:29-40 | the round rocks of a column are at most its cells |
| Day14.RoundsAppend | src/bin/day14.rs:29-40 | the round rocks of two pieces add up |
| Day14.SegStart | src/bin/day14.rs:27-28 | the landing area after the last cube rock above a row starts just below that rock, with no cube rock between |
| Day14.SegEnd | src/bin/day14.rs:25-41 | the stretch around a row ends at the next cube rock or at the bottom, with no cube rock before it |
| Day14.StretchAt | src/bin/day14.rs:25-41 | every row of a stretch between cube rocks finds that stretch |
| Day14.Block | src/bin/day14.rs:29-39 | a settled stretch is as long as the stretch |
| Day14.BlockRounds | src/bin/day14.rs:29-39 | a settled stretch of n round rocks holds n round rocks |
| Day14.Tilt | src/bin/day14.rs:22-41 | tilting north keeps the length and every cube rock in place and leaves only the three kinds of cell |
| Day14.TiltStretch | src/bin/day14.rs:25-41 | after tilting, each stretch between cube rocks holds its round rocks on top and empty space below |
| Day14.TiltStretchRounds | src/bin/day14.rs:25-41 | tilting keeps the number of round rocks in every stretch |
| Day14.TiltPacked | src/bin/day14.rs:30-39 | after tilting no round rock has empty space right above it |
| Day14.TiltTwiceAt | src/bin/day14.rs:22-41 | a cell of a tilted column does not change when it is tilted again |
| Day14.StretchKept | src/bin/day14.rs:26-28 | a column with the same cube rocks has the same stretches |
| Day14.TiltIdempotent | src/bin/day14.rs:22-41 | tilting twice is tilting once |
| Day14.PackedRock | src/bin/day14.rs:27-28 | a cube rock closes the settled stretch and moves the landing area below it |
| Day14.PackedDot | src/bin/day14.rs:25-41 | empty space leaves the settled part of the stretch as it is |
| Day14.PackedStone | src/bin/day14.rs:29-39 | a round rock moved up to the landing area, followed by the walk past non-empty cells, keeps the stretch settled |
| Day14.PackedEnd | src/bin/day14.rs:25-41 | at the bottom the scanned column is the tilted column |
| Day14.CountMove | src/bin/day14.rs:30-33 | moving a round rock up into a cell without one keeps the count of round rocks |
| Day14.CountSet | src/bin/day14.rs:31-32 | writing one cell changes the count of round rocks by what was removed and what was written |
| Day14.ScanRock | src/bin/day14.rs:27-28 | a cube rock puts the landing area just below it and keeps the scan invariant |
| Day14.ScanPast | src/bin/day14.rs:25-41 | a cell that is neither rock keeps the scan invariant |
| Day14.TiltColumn | src/bin/day14.rs:23-41 | the row loop over a column, in place, keeps the cube rocks and the number of round rocks, and on a column of `.`, `O` and `#` gives exactly the tilted column |
| Day14.ScanCell | src/bin/day14.rs:26-40 | one row of the loop keeps the scan invariant |
| Day14.ScanDone | src/bin/day14.rs:25-41 | a scan of every row leaves the column resettled |
| Day14.Roll | src/bin/day14.rs:29-39 | the round-rock branch, with its swap and its `while` over non-empty cells, keeps the scan invariant |
| Day14.ColumnLoad | src/bin/day14.rs:42-47 | the load of the first rows of a column is at most rows times height |
| Day14.StoreColumn | src/bin/day14.rs:42-47 | writing the column back sets exactly column x of the map and adds `height - y` for each round rock at row y |
| Day14.SettleColumn | src/bin/day14.rs:23-47 | one column: copied out, resettled, written back over column x only, and weighed |
| Day14.ResettledKept | src/bin/day14.rs:22-48 | later columns do not undo a settled one |
| Day14.ResettledAppend | src/bin/day14.rs:22-48 | one more settled column extends the settled prefix |
| Day14.WeighedAppend | src/bin/day14.rs:20-48 | one more column adds its load to the running total |
| Day14.Part1 | src/bin/day14.rs:13-51 | `part1` panics exactly when the map cannot be read; otherwise every column is resettled and the result is the sum of their loads |
| Day14.TiltAndWeigh | src/bin/day14.rs:20-48 | the column loop resettles all the columns and totals their loads |
| Day15.HashOf | src/bin/day15.rs:12-20 | the HASH value of a string is below 256, one box per value |
| Day15.HashAppend | src/bin/day15.rs:14-18 | one more character folds into the hash so far: add its code, times 17, low eight bits |
| Day15.Hash | src/bin/day15.rs:12-20 | `hash`: the character loop computes the HASH value of the whole string, below 256 |
| Day15.HashEmpty | src/bin/day15.rs:12-20 | the empty label hashes to box 0 |
| Day15.SumHashes | src/bin/day15.rs:21-28 | the sum of the hashes of n steps is below 256 (n + 1) |
| Day15.Part1 | src/bin/day15.rs:21-28 | `part1` is the sum of the hashes of the comma-separated steps of the trimmed input |
| Day15.Position | src/bin/day15.rs:50-53 | `position` finds the first lens with the label, and finds none exactly when no lens has it (likewise lines 59-62) |
| Day15.PutReplaces | src/bin/day15.rs:50-54 | a label already in the box keeps its slot and takes the new focal length; no other lens moves |
| Day15.PutAppends | src/bin/day15.rs:55-57 | a new label goes at the back of the box |
| Day15.TakeRemoves | src/bin/day15.rs:58-64 | removing a label keeps the other lenses in order and leaves none with that label |
| Day15.TakeAbsent | src/bin/day15.rs:58-64 | removing a label that is not there changes nothing |
| Day15.PutUnique | src/bin/day15.rs:48-57 | `=` keeps the labels of a box unique |
| Day15.TakeUnique | src/bin/day15.rs:58-64 | `-` keeps the labels of a box unique |
| Day15.ParseStep | src/bin/day15.rs:39-49 | an `=` step has an `=` and a `u8` focal length, a `-` step has no `=` but a `-`, and the label followed by its operation character starts the step |
| Day15.PrefixThrough | src/bin/day15.rs:46 | the label and the character after it start the step |
| Day15.ApplyOp | src/bin/day15.rs:47-65 | a step changes only the box its label hashes to |
| Day15.ApplyOpWellFiled | src/bin/day15.rs:47-65 | every step keeps each lens in the box of its hash with unique labels |
| Day15.RunOps | src/bin/day15.rs:38-66 | the steps run in turn keep 256 boxes |
| Day15.EmptyBoxes | src/bin/day15.rs:32-36 | 256 empty boxes |
| Day15.RunOpsWellFiled | src/bin/day15.rs:38-66 | the whole step loop keeps the boxes well filed |
| Day15.EmptyWellFiled | src/bin/day15.rs:32-36 | the empty boxes are well filed |
| Day15.RunOpsUntouched | src/bin/day15.rs:38-66 | a box no step's label hashes to ends as it started |
| Day15.BoxPowerAppend | src/bin/day15.rs:70-74 | a lens at slot i of box b adds (b + 1)(i + 1) times its focal length |
| Day15.BoxPowerZero | src/bin/day15.rs:70-74 | lenses of focal length 0 add no power |
| Day15.LensTable.constructor | src/bin/day15.rs:32-36 | `Vec::with_capacity(256)` filled with empty boxes, well filed |
| Day15.LensTable.Apply | src/bin/day15.rs:39-65 | one step applied to the table in place gives exactly the boxes of `ApplyOp` and keeps them well filed |
| Day15.LensTable.FocusingPower | src/bin/day15.rs:68-75 | the nested loop sums the power of every lens in every box |
| Day15.Part2 | src/bin/day15.rs:30-76 | `part2` succeeds exactly when every step parses, and is then the focusing power after all the steps |
| Day16.Shift | src/bin/day16.rs:47-58 | `shift` keeps the direction and moves one tile that way; North and West of 0 wrap to `usize::MAX` |
| Day16.ShiftBack | src/bin/day16.rs:47-58 | shifting back the opposite way returns to the tile unless the first shift wrapped |
| Day16.Reflect | src/bin/day16.rs:60-76 | `reflect` keeps the position and turns the beam across its axis |
| Day16.ReflectInvolution | src/bin/day16.rs:60-76 | reflecting twice in the same mirror restores the beam |
| Day16.HandleSplit | src/bin/day16.rs:78-95 | along the splitter the beam shifts on with no copy; across it the beam turns North (or West) where it stands and a copy going the opposite way is returned |
| Day16.SplitTurns | src/bin/day16.rs:78-95 | a split beam and its copy both run across the old axis |
| Day16.Advance | src/bin/day16.rs:125-137 | the tile `match` succeeds exactly on `.`, `/`, `\`, `\|` and `-` (else `unreachable!()`), and only splitters add a beam |
| Day16.StartReachable | src/bin/day16.rs:102-105 | the first beam, East from the top left, is reachable |
| Day16.ReachableStep | src/bin/day16.rs:120-137 | whatever a reachable beam on the map becomes is reachable |
| Day16.ClosedHoldsTrace | src/bin/day16.rs:106-145 | a set of beams closed under moving on that holds the start holds every beam of any history that is on the map |
| Day16.ClosedLeads | src/bin/day16.rs:106-145 | a beam of a closed set leads into that set |
| Day16.LeadsInto | src/bin/day16.rs:106-145 | the next beam of a history out of a beam leading into a set is in the set when on the map |
| Day16.ClosedHoldsReachable | src/bin/day16.rs:106-145 | a closed set holding the start holds every reachable beam on the map |
| Day16.Recorded | src/bin/day16.rs:112-115 | `get(pos).is_some_and(contains(dir))` is membership in the set of recorded beams |
| Day16.Record | src/bin/day16.rs:121-124 | `entry(..).or_insert_with(..).insert(dir)` adds exactly the beam to the recorded beams and its tile to the keys |
| Day16.SeenTiles | src/bin/day16.rs:147 | with no empty entry, the tiles of the recorded beams are the keys of the map |
| Day16.InAllBeams | src/bin/day16.rs:26-44 | every beam on the map is one of the finitely many beams of the map |
| Day16.Retain | src/bin/day16.rs:143 | `retain` keeps exactly the beams not removed, in order |
| Day16.RetainNone | src/bin/day16.rs:143 | dropping every beam leaves none |
| Day16.Round | src/bin/day16.rs:107-144 | one round of the `while` keeps the round invariant: recorded beams are reachable and lead into recorded or pending beams; it panics only on a reachable beam hitting an unknown tile; it records a new beam or leaves no beam |
| Day16.RoundStart | src/bin/day16.rs:107-108 | the round invariant holds before the first beam |
| Day16.RoundSkip | src/bin/day16.rs:112-118 | a recorded beam or one off the map is marked for removal, keeping the invariant (likewise lines 138-140) |
| Day16.RoundStuck | src/bin/day16.rs:136 | a beam that reaches `unreachable!()` is reachable |
| Day16.PendingMoved | src/bin/day16.rs:110-137 | moving beam i on keeps every other pending beam pending |
| Day16.MoveLeads | src/bin/day16.rs:121-137 | recording a beam and moving it on keeps every recorded beam leading into recorded or pending ones |
| Day16.MoveReaches | src/bin/day16.rs:121-137 | after moving a new beam on, every recorded and every pending beam is reachable |
| Day16.RoundMove | src/bin/day16.rs:120-137 | a new beam on the map is recorded and moved on, a split queueing its copy; the recorded beams grow strictly |
| Day16.RoundEnd | src/bin/day16.rs:143-144 | dropping the removed beams and adding the queued ones restores the invariant between rounds |
| Day16.Energize | src/bin/day16.rs:100-145 | when the `while` ends the recorded beams are exactly the reachable beams on the map, with no empty entry; it panics only on a reachable beam hitting an unknown tile |
| Day16.Part1 | src/bin/day16.rs:98-148 | `part1` is the number of tiles some reachable beam passes through |
| Day17.CardinalNeighbors | src/bin/day17.rs:33-52 | four neighbours, none of them the block itself (0 wraps to `usize::MAX`) |
| Day17.DirectionTo | src/bin/day17.rs:54-66 | North exactly when the other block is above; West, South, East by the order of the tests; identical blocks panic |
| Day17.NeighborDirections | src/bin/day17.rs:33-66 | away from the top and left edges, the i-th neighbour lies in the i-th direction |
| Day17.Opposite | src/bin/day17.rs:77-84 | the opposite direction differs from the direction |
| Day17.OppositeInvolution | src/bin/day17.rs:77-84 | the opposite of the opposite is the direction |
| Day17.Nearest | src/bin/day17.rs:190-193 | the pair popped from the min-heap of `Reverse<DistPair>` has no pair below it in (loss, y, x) order |
| Day17.Remove | src/bin/day17.rs:190-193 | popping a pair leaves the other pairs |
| Day17.Put | src/bin/day17.rs:195-199 | writing one entry of `dijkstra_map` sets that entry and no other (likewise lines 209-225) |
| Day17.RowLossSet | src/bin/day17.rs:211-225 | replacing one entry of a row changes the row's total loss by the change of that entry |
| Day17.TotalLossSet | src/bin/day17.rs:211-225 | replacing one row changes the total loss by the change of that row |
| Day17.TotalLossPut | src/bin/day17.rs:211-225 | replacing one entry changes the total loss by the change of that entry |
| Day17.Relaxed | src/bin/day17.rs:210-225 | a smaller loss replaces the sources with the block and asks for a push; an equal one appends the block to the sources; a larger one changes nothing |
| Day17.IllegalMovement | src/bin/day17.rs:174-186 | a move is illegal only when the start has exactly one source and that source lies the same way from the start as the end does |
| Day17.InGridAt | src/bin/day17.rs:195 | a block of the map has an entry in `dijkstra_map` (likewise line 209) |
| Day17.PopSeen | src/bin/day17.rs:195-198 | popping a pair whose block was already expanded keeps the Dijkstra invariant |
| Day17.PopFresh | src/bin/day17.rs:195-199 | the popped loss of a block not yet expanded is its loss, and marking it seen keeps the invariant |
| Day17.PopPairs | src/bin/day17.rs:190-199 | the pairs left after the pop are sound at the popped loss |
| Day17.PopCells | src/bin/day17.rs:190-199 | every block is sound after the pop and the mark |
| Day17.Pushed | src/bin/day17.rs:216-219 | the heap keeps its pairs and holds the new pair when one was pushed |
| Day17.RelaxPairs | src/bin/day17.rs:209-225 | the heap pairs stay sound through a relaxation |
| Day17.RelaxOther | src/bin/day17.rs:209-225 | a block other than the relaxed one stays sound |
| Day17.RelaxTarget | src/bin/day17.rs:209-225 | the relaxed block stays sound: a new loss is in the heap and its new source is justified |
| Day17.RelaxKeeps | src/bin/day17.rs:209-225 | relaxing a neighbour keeps the invariant, and the total loss falls exactly when a pair is pushed |
| Day17.RelaxCells | src/bin/day17.rs:209-225 | every block stays sound after a relaxation |
| Day17.InvIntro | src/bin/day17.rs:188-228 | the pair and block conditions make up the invariant |
| Day17.VisitKeeps | src/bin/day17.rs:201-226 | visiting a neighbour keeps the invariant, lowers no loss table entry upward, and lowers the total loss or leaves the heap as it was |
| Day17.VisitRelaxes | src/bin/day17.rs:201-225 | a neighbour on the map with a legal move is relaxed |
| Day17.VisitSkips | src/bin/day17.rs:202-207 | a neighbour off the map or with an illegal move changes nothing |
| Day17.LoweredRefl | src/bin/day17.rs:188-228 | no change lowers nothing upward |
| Day17.Solver.constructor | src/bin/day17.rs:141-156 | every entry unreached except the start at loss 0, and the heap holds just the start |
| Day17.Solver.IsIllegalMovement | src/bin/day17.rs:174-186 | the three-step loop returns exactly `IllegalMovement` |
| Day17.Solver.VisitNeighbor | src/bin/day17.rs:201-225 | one neighbour of the loop updates the table and heap exactly as `Visit` |
| Day17.Solver.Relax | src/bin/day17.rs:209-225 | the `cmp` of the new loss against the neighbour's entry writes exactly `Relaxed` into the table and pushes when it asks |
| Day17.Solver.ExpandFrom | src/bin/day17.rs:201-226 | expanding a block keeps the invariant and lowers the table; the total loss falls or the heap is unchanged |
| Day17.Solver.RunDijkstra | src/bin/day17.rs:188-228 | when the heap is empty every reached block is expanded and every source is justified by an expanded neighbour |
| Day17.Solver.PopNearest | src/bin/day17.rs:190-226 | one turn of the loop keeps the invariant; the total loss falls, or stays while the heap shrinks |
| Day17.LoweredPut | src/bin/day17.rs:211-225 | lowering one entry keeps the table lowered |
| Day17.LoweredSeen | src/bin/day17.rs:199 | marking a block seen keeps the table lowered |
| Day17.LoweredTrans | src/bin/day17.rs:188-228 | lowering twice is lowering |
| Day17.CellBound | src/bin/day17.rs:100 | every loss in the table fits in a `usize` (likewise line 210) |
| Day17.SettledAtEnd | src/bin/day17.rs:189 | with the heap empty the invariant gives a settled table |
| Day17Search.Heading | src/bin/day17.rs:270 | the direction of a move between distinct blocks is what `direction_to` gives |
| Day17Search.Headings | src/bin/day17.rs:266-270 | one direction per move of a walk, each `direction_to` from a block to the next |
| Day17Search.HeadingsSnoc | src/bin/day17.rs:266-311 | extending a walk by a block adds the direction of that move |
| Day17Search.Run | src/bin/day17.rs:271-275 | the run of equal last moves is at least one and at most the number of moves |
| Day17Search.RunSnoc | src/bin/day17.rs:271-275 | a move in the same direction lengthens the run; a turn starts a new run of one |
| Day17Search.RunOfThree | src/bin/day17.rs:271-279 | three equal last moves make a run of at least three |
| Day17Search.CrucibleSnoc | src/bin/day17.rs:270-283 | a move that is no reversal and leaves a ttl keeps the rules of the crucible, and the new ttl plus the new run is 4 |
| Day17Search.WalkSnoc | src/bin/day17.rs:266-276 | a neighbour on the map extends a walk, adding its heat to the loss |
| Day17Search.Moved | src/bin/day17.rs:270-276 | the new frame is on the neighbour with at least the old loss, and one ttl less when it goes straight |
| Day17Search.FrameStep | src/bin/day17.rs:266-311 | a move that passes the checks extends the frame's walk to a crucible walk of the new frame |
| Day17Search.AsIsize | src/bin/day17.rs:314 | `as isize` is in range and keeps any value up to `isize::MAX` |
| Day17Search.Probe | src/bin/day17.rs:266-311 | a neighbour lowers the bound only at the bottom-right block with a smaller loss; a queued frame is elsewhere below the bound, and beats the recorded ttl or loss of its block and direction |
| Day17Search.ProbeExtends | src/bin/day17.rs:266-311 | a lowered bound is the loss of a crucible walk to the bottom-right block, and a queued frame ends a crucible walk |
| Day17Search.FrameReaches | src/bin/day17.rs:258-313 | a frame's walk is a crucible walk to its position with its loss |
| Day17Search.QueuedTail | src/bin/day17.rs:258-263 | `pop_front` hands out a frame with its walk and keeps the rest of the queue sound |
| Day17Search.QueuedSnoc | src/bin/day17.rs:306-311 | `push_back` of a frame with its walk keeps the queue sound |
| Day17Search.End | src/bin/day17.rs:245-248 | the bottom-right block is on the map and no block lies below or right of it |
| Day17Search.SearchWithBound | src/bin/day17.rs:242-315 | the result is at most the Dijkstra bound, and is either that bound or the loss of a crucible walk to the bottom-right block |
| Day17Search.Part1 | src/bin/day17.rs:354-362 | `part1` panics when the map cannot be read; otherwise its answer is at most the settled Dijkstra loss of the bottom-right block, and is either that loss or the loss of a crucible walk to it |
| Day18.Neighbor | src/bin/day18.rs:39-58 | `neighbor` is the cell `shift_direction` moves to, one step of a walk |
| Day18.ShiftedWalk | src/bin/day18.rs:60-69 | `shifted` by n lands where n single steps do |
| Day18.Opposite | src/bin/day18.rs:111-118 | the opposite direction is another direction on the same axis, and a step there undoes a step |
| Day18.OppositeInvolution | src/bin/day18.rs:111-118 | the opposite of the opposite is the direction |
| Day18.DirectionFromStr | src/bin/day18.rs:121-131 | reading a direction from text succeeds exactly when the first character is U, L, D or R, and gives the direction of that letter |
| Day18.DirectionFromChar | src/bin/day18.rs:132-142 | reading a direction from a digit succeeds exactly on 3, 2, 1, 0, and gives the direction of that digit |
| Day18.DirectionRoundTrip | src/bin/day18.rs:121-142 | both readers give back the direction that was written |
| Day18.ByteAt | src/bin/day18.rs:87-89 | a byte is read exactly when the two characters are there and parse in base 16 to at most 255 |
| Day18.ColorFrom | src/bin/day18.rs:85-93 | a colour is read exactly when its three byte pairs are, and holds those bytes |
| Day18.ColorRoundTrip | src/bin/day18.rs:85-93 | reading a colour written as `#rrggbb` gives back its three bytes |
| Day18.PaintCells | src/bin/day18.rs:171-174 | a line paints exactly the cells it passes, in its colour, and leaves every other cell alone |
| Day18.Plan | src/bin/day18.rs:155-179 | the dug trench is well formed: each wall colour has the direction of its line |
| Day18.VerticalJoin | src/bin/day18.rs:233-251 | a vertical wall answers its own direction; the answer is always vertical; South from a horizontal wall means the cell above was dug northward |
| Day18.Crossings | src/bin/day18.rs:199-229 | one counter state before each cell of the row, starting at no walls passed and no open join |
| Day18.CrossingsStep | src/bin/day18.rs:201-229 | each counter state follows from the one before by the body of the inner loop |
| Day18.RowDugCells | src/bin/day18.rs:201-229 | scanning part of a row adds exactly the cells left of an odd number of walls, in `Color::new()`, and changes nothing else |
| Day18.RowDugKeys | src/bin/day18.rs:204-212 | the keys after scanning part of a row are the walls and the dug-out cells of that part |
| Day18.RowDugValues | src/bin/day18.rs:204-212 | walls keep their colour and dug-out cells are `Color::new()` |
| Day18.RowDugOutside | src/bin/day18.rs:201-229 | cells off the scanned part of the row are as they were |
| Day18.RowDugAgrees | src/bin/day18.rs:201-229 | a cell outside the first k cells of the row is as it was |
| Day18.CrossStepFrame | src/bin/day18.rs:204-228 | the counters only look at the cell and the cells above and below it (likewise lines 233-251) |
| Day18.DigRows | src/bin/day18.rs:198-230 | after the first k rows no wall is removed or recoloured and every new cell is a `Color::new()` cell inside the scanned box |
| Day18.Dug | src/bin/day18.rs:197-231 | `dig_inside` removes and recolours no wall, adds only `Color::new()` cells inside the box, and never shrinks the map |
| Day18.SubsetCard | src/bin/day18.rs:253-255 | more cells never give a smaller area |
| Day18.Lagoon.constructor | src/bin/day18.rs:181-188 | the lagoon holds the trench and its extremes widened by three |
| Day18.Lagoon.FromStr | src/bin/day18.rs:154-189 | `from_str` panics exactly as reading the plan does; otherwise the lagoon holds the trench and its extremes widened by three |
| Day18.Lagoon.DigInside | src/bin/day18.rs:197-231 | the row loop leaves exactly the dug-out map `Dug` over the box |
| Day18.Lagoon.DigRow | src/bin/day18.rs:199-229 | one row, west to east, leaves exactly that row scanned |
| Day18.Lagoon.ScanCell | src/bin/day18.rs:202-228 | one cell updates the counters by one scan step and digs the cell out exactly when it is vacant and an odd number of walls lies west of it |
| Day18.DigPlan | src/bin/day18.rs:157-179 | the line loop gives exactly the trench of the plan, or the panic of the first bad line |
| Day18.DigAlong | src/bin/day18.rs:165-178 | one line records its colour's direction, paints one cell per step and updates the extremes |
| Day18.Part1 | src/bin/day18.rs:272-279 | `part1` is the number of cells after digging out the inside of the trench |
| Day18Big.CornerFaces | src/bin/day18.rs:309-316 | a corner faces exactly one of North and South and exactly one of West and East |
| Day18Big.FromDirectionsFaces | src/bin/day18.rs:290-307 | at a real turn the corner faces back where the trench came from and on where it goes, and no other corner does both |
| Day18Big.Bypassable | src/bin/day18.rs:318-321 | two corners can be passed together exactly when both open the same way vertically; the relation is symmetric |
| Day18Big.Compare | src/bin/day18.rs:332-339 | `isize::cmp` is Less, Equal, Greater exactly as the numbers compare |
| Day18Big.Cmp | src/bin/day18.rs:330-343 | `Ord for CornerPosition` is the reversed (y, x) order, so the greatest corner comes first in reading order; the corner kind is ignored |
| Day18Big.CmpAntisymmetric | src/bin/day18.rs:330-343 | p > q exactly when q < p, and equal both ways |
| Day18Big.Top | src/bin/day18.rs:465 | `BinaryHeap::pop` hands out a corner no other corner is greater than |
| Day18Big.Remove | src/bin/day18.rs:465 | popping leaves one corner fewer |
| Day18Big.RemoveMultiset | src/bin/day18.rs:465 | popping loses exactly the corner handed out |
| Day18Big.DrainOrder | src/bin/day18.rs:465-495 | the heap hands out every corner once, in reading order |
| Day18Big.ParseMove | src/bin/day18.rs:376-378 | a move's steps are the first five hexadecimal digits of the colour code and its direction the digit after them |
| Day18Big.Trace | src/bin/day18.rs:375-389 | one corner per line |
| Day18Big.TracePositions | src/bin/day18.rs:375-389 | the first corner is at the origin, each next corner is where the move from the previous leads, and the walk ends after the last move |
| Day18Big.TraceShapes | src/bin/day18.rs:366-388 | each corner is shaped by the heading into it (the last line's for the first corner) and the heading out of it |
| Day18Big.ShapedSnoc | src/bin/day18.rs:379-388 | one more corner shaped by its two headings extends the shaped outline |
| Day18Big.TraceBelow | src/bin/day18.rs:384-385 | `min_x` and `min_y` are at most every corner's coordinate |
| Day18Big.TraceReached | src/bin/day18.rs:364-385 | `min_x` and `min_y` are each `isize::MAX` or some corner's coordinate |
| Day18Big.TurnReached | src/bin/day18.rs:379-388 | one line keeps the minimums reached by corners |
| Day18Big.AsUsize | src/bin/day18.rs:404 | `as usize` wraps a negative value and keeps any value that fits (likewise line 475) |
| Day18Big.CornerlessTally | src/bin/day18.rs:398-411 | after the lines the cursor is on the last line (or west of the box) and inside exactly after an odd number of lines |
| Day18Big.CornerlessTallyPairs | src/bin/day18.rs:398-411 | with ordered pairs, the area is the sum over pairs of `x[2i+1] - x[2i] + 1`, plus one for an unpaired last line |
| Day18Big.CornerlessPairs | src/bin/day18.rs:398-411 | `get_cornerless_line_area` of paired lines fills each pair from line to partner |
| Day18Big.MergeMultiset | src/bin/day18.rs:419-422 | `merge` keeps every item |
| Day18Big.MergeSorted | src/bin/day18.rs:419-422 | `merge` of two sorted sequences is sorted |
| Day18Big.SortedCons | src/bin/day18.rs:419-422 | an item no larger than the head can go in front of a sorted sequence |
| Day18Big.Xs | src/bin/day18.rs:419-421 | the x coordinate of each corner |
| Day18Big.FindCorner | src/bin/day18.rs:436-438 | the search finds a corner at x when there is one, and none exactly when no corner is at x |
| Day18Big.ScanStep | src/bin/day18.rs:427-455 | a bound seen before changes nothing; any other moves the cursor to it and records it |
| Day18Big.LineScanPanic | src/bin/day18.rs:427-455 | the first panic of the bound loop is its result |
| Day18Big.LineScanCornerless | src/bin/day18.rs:398-458 | with no corners and distinct lines, the bound loop never panics and matches the cornerless loop |
| Day18Big.LineAreaWithoutCorners | src/bin/day18.rs:398-458 | a row without corners and with distinct lines is measured alike by `get_line_area` and `get_cornerless_line_area` |
| Day18Big.FirstIndex | src/bin/day18.rs:483-486 | `position` finds the first index holding x, and none exactly when x is absent |
| Day18Big.LowerBound | src/bin/day18.rs:489-491 | the insertion point: every item before it is smaller and the item at it is not |
| Day18Big.InsertSorted | src/bin/day18.rs:489-492 | `binary_search` then `insert` adds exactly x and keeps sorted lines sorted |
| Day18Big.InsertAtSorted | src/bin/day18.rs:489-492 | placing x at the insertion point keeps sorted lines sorted |
| Day18Big.RemoveSorted | src/bin/day18.rs:482-487 | removing a line keeps sorted lines sorted |
| Day18Big.Absorb | src/bin/day18.rs:466-494 | one corner moves to its row (a new row resets the row's corners) and joins them, keeping the lines sorted |
| Day18Big.Place | src/bin/day18.rs:481-494 | a corner facing North ends its line, one facing South starts one; the corner joins the row and the lines stay sorted |
| Day18Big.Levels | src/bin/day18.rs:460-495 | the lines stay sorted and the row is the last corner's |
| Day18Big.LevelsPanic | src/bin/day18.rs:465-495 | the first panic of the corner loop is its result |
| Day18Big.LevelsNext | src/bin/day18.rs:465-495 | one more corner is one more step of the loop |
| Day18Big.LevelsPanicPrefix | src/bin/day18.rs:465-495 | corners after a panic change nothing |
| Day18Big.RowGapExact | src/bin/day18.rs:468-476 | in reading order a new row lies below the previous one, so `(new_y - y - 1) as usize` does not wrap |
| Day18Big.BigLagoon.constructor | src/bin/day18.rs:391-395 | the lagoon holds the outline's corners and minimums |
| Day18Big.BigLagoon.FromStr | src/bin/day18.rs:359-396 | `from_str` panics exactly as reading the outline does, and otherwise holds its corners and minimums |
| Day18Big.BigLagoon.CornerlessLineArea | src/bin/day18.rs:398-411 | the loop computes exactly the cornerless row area |
| Day18Big.BigLagoon.LineAreaOf | src/bin/day18.rs:413-458 | the loop computes exactly the row area over the merged bounds, or its panic |
| Day18Big.BigLagoon.ScanBound | src/bin/day18.rs:428-454 | one bound of the loop is exactly one scan step |
| Day18Big.BigLagoon.GetArea | src/bin/day18.rs:460-499 | `get_area` empties the heap and returns the area of the corners in reading order |
| Day18Big.BigLagoon.LastRow | src/bin/day18.rs:496-498 | the last row is measured and added |
| Day18Big.BigLagoon.Pop | src/bin/day18.rs:465 | the heap loses the corner it hands out first in reading order |
| Day18Big.BigLagoon.AbsorbCorner | src/bin/day18.rs:466-494 | one corner of the loop is exactly `Absorb` |
| Day18Big.BigLagoon.StartRow | src/bin/day18.rs:468-480 | a row change adds the row's area and the cornerless area times the gap, then clears the row's corners |
| Day18Big.Part2 | src/bin/day18.rs:502-505 | `part2` is the area of the outline read from the text, or its panic |
| Day19.AttrIndex | src/bin/day19.rs:45-48 | the position of an attribute name in `ATTR_NAMES`, none exactly when it is not x, m, a or s (likewise lines 79-82) |
| Day19.NewRange | src/bin/day19.rs:61-65 | every attribute ranges over 1..=4000 |
| Day19.Len | src/bin/day19.rs:70 | `(end + 1).saturating_sub(start)` is 0 exactly when the interval is empty, and its width otherwise |
| Day19.IsEmptySize | src/bin/day19.rs:74-76 | a range is empty exactly when its size is 0 |
| Day19.NewRangeSize | src/bin/day19.rs:61-72 | the full range holds 4000^4 combinations |
| Day19.IsEmptyNoPart | src/bin/day19.rs:67-76 | a range is empty exactly when no part lies in it |
| Day19.With | src/bin/day19.rs:99-103 | `with` replaces one interval and copies the other three |
| Day19.Check | src/bin/day19.rs:139-147 | `check` succeeds exactly on a known attribute, and gives the destination exactly when the part's value passes the comparison |
| Day19.SplitBy | src/bin/day19.rs:78-97 | `split_by` succeeds exactly on a known attribute, and for `<` only with a threshold of at least 1 (else `value - 1` overflows) |
| Day19.SplitByOthersUnchanged | src/bin/day19.rs:78-103 | the other three intervals are copied into both halves |
| Day19.SplitBySeparates | src/bin/day19.rs:78-97 | every part of the first half passes the rule, no part of the second does, and every part of the range is in one of them (likewise lines 139-147) |
| Day19.SplitByDisjoint | src/bin/day19.rs:78-97 | the two halves share no part |
| Day19.SizeFactor | src/bin/day19.rs:67-72 | the size factors through any one interval |
| Day19.RestWith | src/bin/day19.rs:99-103 | replacing one interval leaves the product of the other three |
| Day19.SplitBySizes | src/bin/day19.rs:78-97 | with the threshold within reach of the range, the two halves' sizes add up to the range's |
| Day19.SplitByWidens | src/bin/day19.rs:84-89 | with `>` and a threshold past the end, the second half reaches past the end of the range it came from |
| Day19.FindComparison | src/bin/day19.rs:116 | the first `<` or `>`, and none exactly when there is neither |
| Day19.ParseCondition | src/bin/day19.rs:115-137 | a rule without a comparison is the catch-all `x>0` to the whole text |
| Day19.CatchAllMatches | src/bin/day19.rs:129-147 | the catch-all matches every part whose x is at least 1 |
| Day19.CatchAllSplit | src/bin/day19.rs:84-89 | the catch-all sends a whole range whose x starts at 1 or later to its destination, leaving an empty rest (likewise lines 129-136) |
| Day19.ProcessFirstMatch | src/bin/day19.rs:161-168 | `process` succeeds exactly when some rule is the first match, and returns that rule's destination |
| Day19.FirstMatchShift | src/bin/day19.rs:161-168 | a first rule that does not match shifts the first match by one |
| Day19.InsertAllSnoc | src/bin/day19.rs:179-184 | one more line is one more insertion |
| Day19.InsertAllKeys | src/bin/day19.rs:179-184 | the names of the map are the names of the lines |
| Day19.InsertAllLast | src/bin/day19.rs:179-184 | a name repeated on several lines maps to the workflow of its last line |
| Day19.FromStr | src/bin/day19.rs:176-186 | `from_str` succeeds exactly when every line parses, and gives the map of the lines |
| Day19.CheckPart | src/bin/day19.rs:188-195 | the loop from "in" gives the verdict of the workflows |
| Day19.VerdictRoute | src/bin/day19.rs:188-195 | a verdict is a route of workflows from the starting one ending at "A" (true) or "R" (false) |
| Day19.Part1 | src/bin/day19.rs:216-229 | `part1` sums the scores of the accepted parts, stopping at the first panic |
| Day19.CountEnds | src/bin/day19.rs:198-203 | an empty range or "R" counts 0, and "A" counts the size of the range |
| Day19.CountWidened | src/bin/day19.rs:84-89 | after `x>2000:R` on a range with x up to 1000, the rest sent to "A" counts x up to 2000: the count is twice the range's size (likewise lines 197-213) |
| Day19.CountDepth | src/bin/day19.rs:197-213 | a count that succeeds within some depth is the same with any greater depth |
| Day19.CountRulesDepth | src/bin/day19.rs:207-211 | the rule loop that succeeds within some depth is the same with any greater depth |
| Day19.TraverseCount | src/bin/day19.rs:197-213 | `traverse_count` computes exactly the count of the workflow over the range |
| Day19.CountRule | src/bin/day19.rs:208-210 | one rule splits the range and counts its half recursively |
| Day19.CountEach | src/bin/day19.rs:205-212 | the rule loop adds each rule's count while the rest goes on to the next rule |
| Day19.CountNext | src/bin/day19.rs:207-211 | one turn of the rule loop extends the loop by one rule, or is its panic |
| Day19.CountRulesStep | src/bin/day19.rs:207-211 | a turn adds the rule's count and carries the rest |
| Day19.CountRulesStop | src/bin/day19.rs:207-211 | a turn that panics makes the loop panic the same way |
| Day19.CountRulesPanic | src/bin/day19.rs:207-211 | once a prefix of the rules panics, the whole loop panics the same way |
| Day19.Part2 | src/bin/day19.rs:231-235 | `part2` is the count of accepted combinations from "in" over the full range |

## Left out

- Day 6 (`src/bin/day06.rs`): its answers are computed in floating point, which this model does not cover.
- Input and output: `read_input_file`, `main`, timing, `println!`, `dbg!`, `pretty_print` and `_highlight_path` are not modelled. Each part takes the puzzle text as a parameter.
- `src/main.rs` repeats the day 1 solution, which is modelled once (`Day01`).
- `src/bin/template.rs` and the `part2` stubs that return nothing are not modelled.
- Sample answers: the tests that compare a part with the answer for a `sample.txt` file cannot be stated, because those files are not part of this model. The unit tests of `ways_to_fit` at `src/bin/day12.rs:145` and `:151` are proved. The remaining `ways_to_fit` assertions and the `part1` tests at `:169` and `:174` are beyond what the verifier can evaluate here.
- Machine-width overflow is modelled only where the source asks for it (`wrapping_sub`, and the bounds of parsing into `usize`). Other overflows are not modelled: the `u32` accumulators of both day 1 folds (`src/bin/day01.rs:47` and `:100`) are unbounded `nat`s here, and so are `1 << (k - 1)` in day 4, the running `res +=` sums, `value + 1` and the size product in day 19, and `res as isize` in day 11 and in day 13.
- Day10.Race: the source loops forever when the two heads never meet; the `bound` parameter turns that into a panic after `bound` moves.
- Day10.FarthestDistance: takes the same `bound` as `Race`.
- Day10.Part1: takes the same `bound` as `Race`. Its panic messages are not the exact text of the source.
- Day17Search.SearchWithBound: a `fuel` parameter bounds the frames popped, because termination of the search is not proved. The result is proved to be a crucible walk's loss within the bound, not proved to be the least such loss.
- Day17Search.Part1: inherits the `fuel` of `SearchWithBound`.
- Day17.Solver.RunDijkstra: proved to leave every block expanded or unreached, every source justified, and no loss raised. Shortest-path optimality under the straight-run rule is not stated.
- Day19.Count: a `depth` parameter stands for the call stack of the recursion.
- Day19.TraverseCount: takes the same `depth` as `Count`.
- Day19.Part2: takes the same `depth` as `Count`.
- Day19.CheckPart: the source loops forever on a cycle of workflows; a set of visited workflows turns that into a panic.
- Day14.TiltColumn: for a column holding characters other than 'O', '#' and '.', it only promises that the cube rocks stay put and that the number of round rocks is kept.
- Day13.Part1: requires the text to be at most `isize::MAX` characters long, the limit of a Rust `String`.
- Sorting: `sort_unstable_by` in day 5 and in day 7 is modelled as a stable insertion sort.
- Day05.SortByStart: pieces with equal starts keep their input order. `sort_unstable_by` may order them differently, and that order can decide whether the gap loop of `partition_by` (`src/bin/day05.rs:72-85`) underflows, so part 2 may panic on inputs where the model does not, or the reverse.
- Day07.Part1: the comparisons made are those of the insertion sort, not those of the library's sort. The model panics exactly when the insertion sort compares a hand holding a card outside `CARD_ORDER`; the library's sort may compare other pairs.
- `HashMap` and `HashSet` are modelled as `map` and `set`. Where the source's iteration order matters, the order is a parameter.
- `BinaryHeap` internals are not modelled. In day 17 entries with equal keys are identical. In day 18 part 2, ties between equal corners are not modelled, and `binary_search_by` takes the first corner with that `x`.
- Panic messages are approximate outside Day10.Part1 too. The model gives one reason per failing `unwrap`, `expect` or `panic!`, and where several checks fail it may report a different one than the source would. For example, Day19.ParsePart checks the number of fields before parsing the first three, and the messages of Grid.FromRowMajor and Text.ParseNumber are not the source's text.
- Text is taken to be ASCII, so byte and character indices coincide.
- Day 16's `Beam` methods that take `&mut self` are modelled as functions returning the moved beam.
- The internals of the `array2d` and `itertools` crates are not modelled. `Array2D::from_iter_row_major` is taken to fail when it is given fewer than `rows * columns` items.
