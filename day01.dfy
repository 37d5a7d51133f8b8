/**
 * Day 1: calibration values.  Each line of the document gives a two-digit
 * number built from its first and last digit; the answer is their sum.
 * Part 1 only counts the digits '0'..'9'; part 2 also counts the spelled
 * out words "one".."nine".
 */
module Day01 {
  import opened Text

  // ---------------------------------------------------------------------
  // Part 1: digits only

  /** The index of the first ASCII digit of `line`. */
  function FirstDigitIndex(line: string): (r: Option<nat>)
    ensures r.None? <==> forall j :: 0 <= j < |line| ==> !IsDigit(line[j])
    ensures r.Some? ==> (r.value < |line| && IsDigit(line[r.value])
      && forall j :: 0 <= j < r.value ==> !IsDigit(line[j]))
  {
    if |line| == 0 then None
    else if IsDigit(line[0]) then Some(0)
    else match FirstDigitIndex(line[1..])
      case None => None
      case Some(i) => Some(i + 1)
  }

  /** The index of the last ASCII digit of `line`. */
  function LastDigitIndex(line: string): (r: Option<nat>)
    ensures r.None? <==> forall j :: 0 <= j < |line| ==> !IsDigit(line[j])
    ensures r.Some? ==> (r.value < |line| && IsDigit(line[r.value])
      && forall j :: r.value < j < |line| ==> !IsDigit(line[j]))
  {
    if |line| == 0 then None
    else if IsDigit(line[|line| - 1]) then Some(|line| - 1)
    else LastDigitIndex(line[..|line| - 1])
  }

  /** The value of the digit at the given index, or 0 (`unwrap_or('0')`) when there is none. */
  function DigitOr0(line: string, i: Option<nat>): (d: nat)
    requires i.Some? ==> i.value < |line| && IsDigit(line[i.value])
    ensures d <= 9
  {
    match i
    case None => 0
    case Some(k) => DigitValue(line[k])
  }

  /** The part-1 value of one line: ten times its first digit plus its last digit. */
  function Calibration1(line: string): (v: nat)
    ensures v <= 99
  {
    10 * DigitOr0(line, FirstDigitIndex(line)) + DigitOr0(line, LastDigitIndex(line))
  }

  /** A line without digits is worth 0. */
  lemma Calibration1NoDigit(line: string)
    requires forall j :: 0 <= j < |line| ==> !IsDigit(line[j])
    ensures Calibration1(line) == 0
  {
  }

  /** A line with exactly one digit d is worth 11 d. */
  lemma Calibration1OneDigit(line: string, i: nat)
    requires i < |line| && IsDigit(line[i])
    requires forall j :: 0 <= j < |line| && j != i ==> !IsDigit(line[j])
    ensures Calibration1(line) == 11 * DigitValue(line[i])
  {
  }

  /** The first and last digit in general: the first and last index holding a digit. */
  lemma Calibration1Digits(line: string, i: nat, k: nat)
    requires i <= k < |line| && IsDigit(line[i]) && IsDigit(line[k])
    requires forall j :: 0 <= j < |line| && (j < i || k < j) ==> !IsDigit(line[j])
    ensures Calibration1(line) == 10 * DigitValue(line[i]) + DigitValue(line[k])
  {
  }

  /** The part-1 fold over lines. */
  function SumCalibration1(lines: seq<string>): (total: nat)
    ensures total <= 99 * |lines|
  {
    if |lines| == 0 then 0 else SumCalibration1(lines[..|lines| - 1]) + Calibration1(lines[|lines| - 1])
  }

  /** Part 1: every piece of `contents.split('\n')` counts, the empty last one included. */
  function Part1(contents: string): (total: nat)
    ensures total <= 99 * (CountChar(contents, '\n') + 1)
  {
    SplitCount(contents, '\n');
    SumCalibration1(Split(contents, '\n'))
  }

  // ---------------------------------------------------------------------
  // Part 2: digits and words

  /**
   * The words searched for; a word's index is its value.  Index 0 holds a
   * sentinel of four newlines that can never occur inside a line.
   */
  const Words: seq<string> := ["\n\n\n\n", "one", "two", "three", "four", "five", "six", "seven", "eight", "nine"]

  /** `string_numbers.iter().position(..)` from index `k` on: the first word `s` starts with. */
  function WordFrom(s: string, k: nat): (r: Option<nat>)
    requires k <= |Words|
    ensures r.Some? ==> k <= r.value < |Words| && StartsWith(s, Words[r.value])
    ensures r.Some? ==> forall j :: k <= j < r.value ==> !StartsWith(s, Words[j])
    ensures r.None? ==> forall j :: k <= j < |Words| ==> !StartsWith(s, Words[j])
    decreases |Words| - k
  {
    if k == |Words| then None
    else if StartsWith(s, Words[k]) then Some(k)
    else WordFrom(s, k + 1)
  }

  /** What the scans find at index `i`: a digit's value, or the index of a word starting there. */
  function ValueAt(line: string, i: nat): (r: Option<nat>)
    requires i < |line|
    ensures r.Some? ==> r.value <= 9
  {
    if IsDigit(line[i]) then Some(DigitValue(line[i])) else WordFrom(line[i..], 0)
  }

  /** The part-2 first digit: the value at the first index that holds one, else 0. */
  function FirstValue(line: string): (d: nat)
    ensures d <= 9
  {
    FirstValueFrom(line, 0)
  }

  function FirstValueFrom(line: string, i: nat): (d: nat)
    requires i <= |line|
    ensures d <= 9
    decreases |line| - i
  {
    if i == |line| then 0
    else if ValueAt(line, i).Some? then ValueAt(line, i).value
    else FirstValueFrom(line, i + 1)
  }

  /** The part-2 last digit: the value at the last index that holds one, else 0. */
  function LastValue(line: string): (d: nat)
    ensures d <= 9
  {
    LastValueBelow(line, |line|)
  }

  function LastValueBelow(line: string, i: nat): (d: nat)
    requires i <= |line|
    ensures d <= 9
  {
    if i == 0 then 0
    else if ValueAt(line, i - 1).Some? then ValueAt(line, i - 1).value
    else LastValueBelow(line, i - 1)
  }

  /** `FirstValueFrom` skips indices that hold nothing and stops at the first that does. */
  lemma {:induction false} FirstValueAt(line: string, i: nat, k: nat)
    requires i <= k <= |line|
    requires forall j :: i <= j < k ==> ValueAt(line, j).None?
    ensures FirstValueFrom(line, i) == FirstValueFrom(line, k)
    decreases k - i
  {
    if i < k {
      FirstValueAt(line, i + 1, k);
    }
  }

  lemma {:induction false} LastValueAt(line: string, i: nat, k: nat)
    requires k <= i <= |line|
    requires forall j :: k <= j < i ==> ValueAt(line, j).None?
    ensures LastValueBelow(line, i) == LastValueBelow(line, k)
    decreases i - k
  {
    if k < i {
      assert ValueAt(line, i - 1).None?;
      LastValueAt(line, i - 1, k);
    }
  }

  /**
   * The forward scan: stops at the first index with a digit or the start of
   * a word, and gives the value found there; 0 when there is none.
   */
  method ScanFirst(line: string) returns (first: nat)
    ensures first == FirstValue(line)
  {
    first := 0;
    var index := 0;
    while index < |line|
      invariant index <= |line|
      invariant forall j :: 0 <= j < index ==> ValueAt(line, j).None?
    {
      if IsDigit(line[index]) {
        assert ValueAt(line, index) == Some(DigitValue(line[index]));
        first := DigitValue(line[index]);
        FirstValueAt(line, 0, index);
        return;
      }
      var found := WordFrom(line[index..], 0);
      if found.Some? {
        assert ValueAt(line, index) == found;
        first := found.value;
        FirstValueAt(line, 0, index);
        return;
      }
      assert ValueAt(line, index).None?;
      index := index + 1;
    }
    FirstValueAt(line, 0, |line|);
  }

  /** The backward scan: the same, walking from the end of the line. */
  method ScanLast(line: string) returns (last: nat)
    ensures last == LastValue(line)
  {
    last := 0;
    var index := |line|;
    while index > 0
      invariant 0 <= index <= |line|
      invariant forall j :: index <= j < |line| ==> ValueAt(line, j).None?
    {
      index := index - 1;
      if IsDigit(line[index]) {
        assert ValueAt(line, index) == Some(DigitValue(line[index]));
        last := DigitValue(line[index]);
        LastValueAt(line, |line|, index + 1);
        return;
      }
      var found := WordFrom(line[index..], 0);
      if found.Some? {
        assert ValueAt(line, index) == found;
        last := found.value;
        LastValueAt(line, |line|, index + 1);
        return;
      }
      assert ValueAt(line, index).None?;
    }
    LastValueAt(line, |line|, 0);
  }

  /** The forward scan gives the value at the first index that holds one. */
  lemma FirstValueFound(line: string, i: nat)
    requires i < |line| && ValueAt(line, i).Some?
    requires forall j :: 0 <= j < i ==> ValueAt(line, j).None?
    ensures FirstValue(line) == ValueAt(line, i).value
  {
    FirstValueAt(line, 0, i);
  }

  /** The backward scan gives the value at the last index that holds one. */
  lemma LastValueFound(line: string, i: nat)
    requires i < |line| && ValueAt(line, i).Some?
    requires forall j :: i < j < |line| ==> ValueAt(line, j).None?
    ensures LastValue(line) == ValueAt(line, i).value
  {
    LastValueAt(line, |line|, i + 1);
  }

  /** The part-2 value of one line. */
  function Calibration2(line: string): (v: nat)
    ensures v <= 99
  {
    10 * FirstValue(line) + LastValue(line)
  }

  function SumCalibration2(lines: seq<string>): (total: nat)
    ensures total <= 99 * |lines|
  {
    if |lines| == 0 then 0 else SumCalibration2(lines[..|lines| - 1]) + Calibration2(lines[|lines| - 1])
  }

  /** Part 2: the fold over all pieces of `contents.split('\n')`. */
  method Part2(contents: string) returns (sum: nat)
    ensures sum == SumCalibration2(Split(contents, '\n'))
  {
    sum := SumScans(Split(contents, '\n'));
  }

  /** The loop of part 2: both scans on each line, their values added up. */
  method SumScans(lines: seq<string>) returns (sum: nat)
    ensures sum == SumCalibration2(lines)
  {
    sum := 0;
    var n := 0;
    while n < |lines|
      invariant n <= |lines|
      invariant sum == SumCalibration2(lines[..n])
    {
      var first := ScanFirst(lines[n]);
      var last := ScanLast(lines[n]);
      assert lines[..n + 1][..n] == lines[..n];
      sum := sum + first * 10 + last;
      n := n + 1;
    }
    assert lines[..n] == lines;
  }

  /** The sentinel word is never found in a line, which has no '\n'. */
  lemma SentinelNeverFound(line: string, i: nat)
    requires i < |line| && '\n' !in line
    ensures ValueAt(line, i) != Some(0) || line[i] == '0'
  {
    assert line[i..][0] == line[i];
  }

  /** So in a line with neither the digit 0 nor '\n', whatever the scans find is in 1..9. */
  lemma WordValuesPositive(line: string, i: nat)
    requires i < |line| && '\n' !in line && '0' !in line
    requires ValueAt(line, i).Some?
    ensures 1 <= ValueAt(line, i).value <= 9
  {
    SentinelNeverFound(line, i);
  }

  /** Overlapping words: in "eightwo" the forward scan finds 8 and the backward scan finds 2. */
  lemma EightTwo()
    ensures Calibration2("eightwo") == 82
  {
    var line := "eightwo";
    assert StartsWith(line[0..], Words[8]);
    assert ValueAt(line, 0) == Some(8);
    assert StartsWith(line[4..], Words[2]);
    assert ValueAt(line, 4) == Some(2);
    assert ValueAt(line, 5) == None by {
      assert !StartsWith(line[5..], Words[0]);
      assert line[5..] == "wo";
    }
    assert ValueAt(line, 6) == None by {
      assert line[6..] == "o";
    }
  }

  /** A line where neither scan finds anything adds 0. */
  lemma Calibration2Nothing(line: string)
    requires forall j :: 0 <= j < |line| ==> ValueAt(line, j).None?
    ensures Calibration2(line) == 0
  {
    FirstValueAt(line, 0, |line|);
    LastValueAt(line, |line|, 0);
  }

  /** On a line without words, part 2 agrees with part 1. */
  lemma Calibration2NoWords(line: string)
    requires forall j :: 0 <= j < |line| ==> IsDigit(line[j]) || WordFrom(line[j..], 0).None?
    ensures Calibration2(line) == Calibration1(line)
  {
    match FirstDigitIndex(line)
    case None =>
      Calibration2Nothing(line);
    case Some(i) =>
      FirstValueAt(line, 0, i);
      var k := LastDigitIndex(line).value;
      LastValueAt(line, |line|, k + 1);
  }
}
