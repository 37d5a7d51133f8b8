/**
 * Day 4, "Scratchcards" (src/bin/day04.rs): each card lists winning
 * numbers and the numbers the elf holds; a card with k matches is worth
 * 2^(k-1) points, or nothing without a match, and `part1` adds the points
 * of all cards.
 */
module Day04 {
  import opened Text

  // ---------------------------------------------------------------------
  // Reading a card

  /**
   * The two number sections of a card: the piece after the first ": "
   * (`nth(1).unwrap()`), cut at " | " into the winning and the owned
   * numbers (the second `next().unwrap()`).
   */
  function Sections(line: string): (r: Result<(string, string)>)
    ensures r.Ok? <==> |SplitStr(line, ": ")| >= 2 && |SplitStr(SplitStr(line, ": ")[1], " | ")| >= 2
  {
    var parts := SplitStr(line, ": ");
    if |parts| < 2 then Panic(Unwrapped)
    else
      var halves := SplitStr(parts[1], " | ");
      if |halves| < 2 then Panic(Unwrapped)
      else Ok((halves[0], halves[1]))
  }

  const Unwrapped := "called `Option::unwrap()` on a `None` value"

  /** The `HashSet` of the whitespace-separated tokens of a section, compared as text. */
  function Numbers(section: string): set<string> {
    set t | t in SplitWhitespace(section)
  }

  // ---------------------------------------------------------------------
  // Scoring

  /** `1 << n` */
  function Pow2(n: nat): (p: nat)
    ensures p >= 1
  {
    if n == 0 then 1 else 2 * Pow2(n - 1)
  }

  /** The points of a card with `matches` numbers in common. */
  function Points(matches: nat): nat {
    if matches == 0 then 0 else Pow2(matches - 1)
  }

  /**
   * The points the fold of `part1` adds for one card: nothing when the two
   * sets of numbers are disjoint, else one point doubled for each match
   * after the first.
   */
  function CardPoints(line: string): (r: Result<nat>)
    ensures r.Ok? <==> Sections(line).Ok?
    ensures r.Ok? ==> (r.value == 0 <==> Numbers(Sections(line).value.0) * Numbers(Sections(line).value.1) == {})
    ensures r.Ok? && |Numbers(Sections(line).value.0) * Numbers(Sections(line).value.1)| > 0 ==>
      r.value == Pow2(|Numbers(Sections(line).value.0) * Numbers(Sections(line).value.1)| - 1)
  {
    match Sections(line)
    case Panic(why) => Panic(why)
    case Ok(sections) =>
      var common := Numbers(sections.0) * Numbers(sections.1);
      if common == {} then Ok(0)
      else
        assert common != {} ==> |common| > 0;
        Ok(Points(|common|))
  }

  /** Each match beyond the first `k` doubles the points: `k + j` matches score `2^j` times `k`. */
  lemma {:induction false} PointsDouble(k: nat, j: nat)
    requires k >= 1
    ensures Points(k + j) == Pow2(j) * Points(k)
  {
    if j > 0 {
      PointsDouble(k, j - 1);
      assert Points(k + j) == 2 * Points(k + j - 1);
    }
  }

  // ---------------------------------------------------------------------
  // Tokens are compared as a set

  /** A whitespace-separated token: not empty, no whitespace in it. */
  predicate IsToken(t: string) {
    |t| > 0 && forall j :: 0 <= j < |t| ==> !IsWhitespace(t[j])
  }

  /** A token that ends before the whitespace closing `a` ends at the same place in `a + b`. */
  lemma {:induction false} TokenLengthAppend(a: string, b: string)
    requires |a| > 0 && IsWhitespace(a[|a| - 1])
    ensures TokenLength(a + b) == TokenLength(a) < |a|
  {
    if !IsWhitespace(a[0]) {
      TokenLengthAppend(a[1..], b);
      assert (a + b)[1..] == a[1..] + b;
    }
  }

  /** Splitting at whitespace is compatible with appending after whitespace. */
  lemma {:induction false} SplitWhitespaceAppend(a: string, b: string)
    requires |a| > 0 && IsWhitespace(a[|a| - 1])
    ensures SplitWhitespace(a + b) == SplitWhitespace(a) + SplitWhitespace(b)
    decreases |a|
  {
    if |a| == 1 {
      SpaceAppend(a, b);
    } else if IsWhitespace(a[0]) {
      SplitWhitespaceAppend(a[1..], b);
      SpaceAppend(a, b);
    } else {
      TokenLengthAppend(a, b);
      SplitWhitespaceAppend(a[TokenLength(a)..], b);
      TokenAppend(a, b);
    }
  }

  /** The step of `SplitWhitespaceAppend` for a leading whitespace character. */
  lemma SpaceAppend(a: string, b: string)
    requires |a| > 0 && IsWhitespace(a[0])
    requires |a| > 1 ==> SplitWhitespace(a[1..] + b) == SplitWhitespace(a[1..]) + SplitWhitespace(b)
    ensures SplitWhitespace(a + b) == SplitWhitespace(a) + SplitWhitespace(b)
  {
    var ab := a + b;
    assert ab[0] == a[0];
    assert ab[1..] == a[1..] + b;
    SplitSpace(ab);
    SplitSpace(a);
    if |a| == 1 {
      assert a[1..] == [];
    }
  }

  /** The step of `SplitWhitespaceAppend` for a leading token. */
  lemma TokenAppend(a: string, b: string)
    requires |a| > 0 && !IsWhitespace(a[0]) && TokenLength(a) < |a|
    requires TokenLength(a + b) == TokenLength(a)
    requires SplitWhitespace(a[TokenLength(a)..] + b) == SplitWhitespace(a[TokenLength(a)..]) + SplitWhitespace(b)
    ensures SplitWhitespace(a + b) == SplitWhitespace(a) + SplitWhitespace(b)
  {
    var ab := a + b;
    var n := TokenLength(a);
    assert ab[0] == a[0];
    assert ab[..n] == a[..n];
    assert ab[n..] == a[n..] + b;
    SplitToken(ab);
    SplitToken(a);
    ConsAppend(SplitWhitespace(ab), SplitWhitespace(a), a[..n], SplitWhitespace(a[n..]), SplitWhitespace(b));
  }

  /** A sequence led by `t` and followed by `x + y` is `[t] + x` followed by `y`. */
  lemma ConsAppend<T>(p: seq<T>, q: seq<T>, t: T, x: seq<T>, y: seq<T>)
    requires p == [t] + (x + y) && q == [t] + x
    ensures p == q + y
  {
  }

  /** A leading whitespace character is dropped by the split. */
  lemma SplitSpace(s: string)
    requires |s| > 0 && IsWhitespace(s[0])
    ensures SplitWhitespace(s) == SplitWhitespace(s[1..])
  {
  }

  /** A leading token is the first piece of the split. */
  lemma SplitToken(s: string)
    requires |s| > 0 && !IsWhitespace(s[0])
    ensures SplitWhitespace(s) == [s[..TokenLength(s)]] + SplitWhitespace(s[TokenLength(s)..])
  {
  }

  /** A lone token splits into itself. */
  lemma SplitWhitespaceToken(t: string)
    requires IsToken(t)
    ensures SplitWhitespace(t) == [t]
  {
    TokenAll(t);
    assert t[..|t|] == t && t[|t|..] == [];
  }

  /** A token runs to the end of a string with no whitespace. */
  lemma {:induction false} TokenAll(t: string)
    requires forall j :: 0 <= j < |t| ==> !IsWhitespace(t[j])
    ensures TokenLength(t) == |t|
  {
    if |t| > 0 {
      TokenAll(t[1..]);
    }
  }

  /** Repeating a number already in a section changes nothing: duplicates count once. */
  lemma RepeatIgnored(section: string, t: string)
    requires IsToken(t) && t in Numbers(section)
    ensures Numbers(section + " " + t) == Numbers(section)
  {
    var a := section + " ";
    assert section + " " + t == a + t;
    SplitWhitespaceAppend(a, t);
    assert a + [] == a;
    SplitWhitespaceAppend(a, []);
    assert SplitWhitespace(a) == SplitWhitespace(section) by {
      if |section| == 0 {
      } else if IsWhitespace(section[|section| - 1]) {
        SplitWhitespaceAppend(section, " ");
      } else {
        SplitWhitespaceEnd(section);
      }
    }
    SplitWhitespaceToken(t);
  }

  /** A trailing space adds no token. */
  lemma {:induction false} SplitWhitespaceEnd(s: string)
    ensures SplitWhitespace(s + " ") == SplitWhitespace(s)
    decreases |s|
  {
    if |s| == 0 {
      assert " "[1..] == [];
    } else if IsWhitespace(s[0]) {
      assert (s + " ")[1..] == s[1..] + " ";
      SplitWhitespaceEnd(s[1..]);
    } else {
      var n := TokenLength(s);
      TokenLengthSpace(s);
      assert (s + " ")[..n] == s[..n];
      assert (s + " ")[n..] == s[n..] + " ";
      SplitWhitespaceEnd(s[n..]);
    }
  }

  /** A space after `s` ends its first token where `s` alone would. */
  lemma {:induction false} TokenLengthSpace(s: string)
    ensures TokenLength(s + " ") == TokenLength(s)
  {
    if |s| > 0 && !IsWhitespace(s[0]) {
      assert (s + " ")[1..] == s[1..] + " ";
      TokenLengthSpace(s[1..]);
    }
  }

  // ---------------------------------------------------------------------
  // part1

  /**
   * `part1`: the points of the cards on the lines before the first empty
   * one, added up; it panics at the first card it cannot read.
   */
  function Part1(contents: string): (r: Result<nat>)
    ensures r.Ok? <==> forall i :: 0 <= i < |Lines(contents)| ==> Sections(Lines(contents)[i]).Ok?
  {
    SumResultsOk(CardPoints, Lines(contents));
    SumResults(CardPoints, Lines(contents))
  }
}
