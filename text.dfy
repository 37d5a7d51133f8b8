/**
 * String and number helpers shared by the puzzle solutions: the parts of
 * Rust's `str` and integer parsing that the solutions rely on, stated over
 * `seq<char>`.  Strings are treated as sequences of characters, so a byte
 * index and a character index coincide (the inputs are ASCII).
 */
module Text {

  /** The outcome of an operation that panics on bad input. */
  datatype Result<T> = Ok(value: T) | Panic(reason: string)

  datatype Option<T> = None | Some(value: T)

  const USIZE_MAX: nat := 0xFFFF_FFFF_FFFF_FFFF
  const U8_MAX: nat := 255
  const ISIZE_MIN: int := -0x8000_0000_0000_0000
  const ISIZE_MAX: int := 0x7FFF_FFFF_FFFF_FFFF

  /** `usize::wrapping_sub(1)`. */
  function WrappingDec(v: nat): (r: nat)
    ensures v == 0 ==> r == USIZE_MAX
    ensures v > 0 ==> r + 1 == v
  {
    if v == 0 then USIZE_MAX else v - 1
  }

  // ---------------------------------------------------------------------
  // Searching

  /** `str::find(c)`: the index of the first occurrence of `c`. */
  function IndexOf(s: string, c: char): (r: Option<nat>)
    ensures r.None? <==> c !in s
    ensures r.Some? ==> r.value < |s| && s[r.value] == c && c !in s[..r.value]
  {
    if |s| == 0 then None
    else if s[0] == c then Some(0)
    else match IndexOf(s[1..], c)
      case None => None
      case Some(i) => assert s[1..][..i] == s[1..i + 1]; Some(i + 1)
  }

  /** `str::matches(c).count()`: the number of occurrences of `c`. */
  function CountChar(s: string, c: char): (n: nat)
    ensures n == multiset(s)[c]
    ensures n <= |s|
    ensures n == 0 <==> c !in s
  {
    if |s| == 0 then 0
    else
      assert s == [s[0]] + s[1..];
      (if s[0] == c then 1 else 0) + CountChar(s[1..], c)
  }

  /** `a.starts_with(b)` */
  predicate StartsWith(a: string, b: string) {
    |b| <= |a| && a[..|b|] == b
  }

  // ---------------------------------------------------------------------
  // Splitting

  /** `s.split(sep)`: the pieces between occurrences of `sep`, empty pieces included. */
  function Split(s: string, sep: char): (parts: seq<string>)
    ensures |parts| >= 1
    ensures forall i :: 0 <= i < |parts| ==> sep !in parts[i]
    decreases |s|
  {
    match IndexOf(s, sep)
    case None => [s]
    case Some(i) => [s[..i]] + Split(s[i + 1..], sep)
  }

  /** There is one more piece than there are separators. */
  lemma {:induction false} SplitCount(s: string, sep: char)
    ensures |Split(s, sep)| == CountChar(s, sep) + 1
    decreases |s|
  {
    match IndexOf(s, sep)
    case None =>
    case Some(i) =>
      CountSplitAt(s, sep, i);
      SplitCount(s[i + 1..], sep);
  }

  lemma CountSplitAt(s: string, sep: char, i: nat)
    requires i < |s| && s[i] == sep && sep !in s[..i]
    ensures CountChar(s, sep) == 1 + CountChar(s[i + 1..], sep)
  {
    if i > 0 {
      assert s[1..][..i - 1] == s[1..i];
      assert s[1..][i..] == s[i + 1..];
      CountSplitAt(s[1..], sep, i - 1);
    }
  }

  /** The inverse of `Split`: the pieces glued back together with `sep`. */
  function Join(parts: seq<string>, sep: char): string
    requires |parts| >= 1
  {
    if |parts| == 1 then parts[0] else parts[0] + [sep] + Join(parts[1..], sep)
  }

  /** Splitting and joining are inverse to each other. */
  lemma {:induction false} JoinSplit(s: string, sep: char)
    ensures Join(Split(s, sep), sep) == s
    decreases |s|
  {
    match IndexOf(s, sep)
    case None =>
    case Some(i) =>
      var before, after := s[..i], s[i + 1..];
      var rest := Split(after, sep);
      assert Split(s, sep) == [before] + rest;
      JoinCons(before, rest, sep);
      JoinSplit(after, sep);
      Around(s, i);
  }

  /** A string is the part before index `i`, the item at `i` and the part after it. */
  lemma Around<T>(s: seq<T>, i: nat)
    requires i < |s|
    ensures s[..i] + [s[i]] + s[i + 1..] == s
  {
  }

  /** Joining a first part to the rest puts one separator between them. */
  lemma JoinCons(x: string, rest: seq<string>, sep: char)
    requires |rest| >= 1
    ensures Join([x] + rest, sep) == x + [sep] + Join(rest, sep)
  {
    assert ([x] + rest)[1..] == rest;
  }

  lemma {:induction false} SplitJoin(parts: seq<string>, sep: char)
    requires |parts| >= 1
    requires forall i :: 0 <= i < |parts| ==> sep !in parts[i]
    ensures Split(Join(parts, sep), sep) == parts
  {
    if |parts| > 1 {
      var first, tail := parts[0], parts[1..];
      assert [first] + tail == parts;
      forall j | 0 <= j < |tail|
        ensures sep !in tail[j]
      {
        assert tail[j] == parts[j + 1];
      }
      JoinCons(first, tail, sep);
      SplitCons(first, Join(tail, sep), sep);
      SplitJoin(tail, sep);
    }
  }

  /** A first part free of the separator is split off whole. */
  lemma SplitCons(x: string, rest: string, sep: char)
    requires sep !in x
    ensures Split(x + [sep] + rest, sep) == [x] + Split(rest, sep)
  {
    var s := x + [sep] + rest;
    var k := |x|;
    assert s[..k] == x;
    assert s[k + 1..] == rest;
    IndexOfFirst(s, sep, k);
  }

  lemma IndexOfFirst(s: string, c: char, i: nat)
    requires i < |s| && s[i] == c && c !in s[..i]
    ensures IndexOf(s, c) == Some(i)
  {
    if i > 0 {
      assert s[1..][..i - 1] == s[1..i];
      IndexOfFirst(s[1..], c, i - 1);
    }
  }

  /** `iter.take_while(|x| !x.is_empty())`: the pieces before the first empty one. */
  function TakeNonEmpty(parts: seq<string>): (r: seq<string>)
    ensures |r| <= |parts| && r == parts[..|r|]
    ensures forall i :: 0 <= i < |r| ==> r[i] != []
    ensures |r| < |parts| ==> parts[|r|] == []
  {
    if |parts| == 0 || parts[0] == [] then [] else [parts[0]] + TakeNonEmpty(parts[1..])
  }

  /** `contents.split('\n').take_while(|x| !x.is_empty())`, the usual line reader. */
  function Lines(s: string): (lines: seq<string>)
    ensures forall i :: 0 <= i < |lines| ==> lines[i] != [] && '\n' !in lines[i]
  {
    TakeNonEmpty(Split(s, '\n'))
  }

  /** `s.split(pat)` for a non-empty string pattern, matching left to right. */
  function SplitStr(s: string, pat: string): (parts: seq<string>)
    requires |pat| > 0
    ensures |parts| >= 1
    decreases |s|
  {
    match FindStr(s, pat, 0)
    case None => [s]
    case Some(i) => [s[..i]] + SplitStr(s[i + |pat|..], pat)
  }

  /** The inverse of `SplitStr`: the pieces glued back together with `pat`. */
  function JoinStr(parts: seq<string>, pat: string): string
    requires |parts| >= 1
  {
    if |parts| == 1 then parts[0] else parts[0] + pat + JoinStr(parts[1..], pat)
  }

  /** Gluing the pieces of `split(pat)` back together with `pat` gives `s`. */
  lemma {:induction false} SplitStrJoin(s: string, pat: string)
    requires |pat| > 0
    ensures JoinStr(SplitStr(s, pat), pat) == s
    decreases |s|
  {
    match FindStr(s, pat, 0)
    case None =>
    case Some(k) =>
      var rest := SplitStr(s[k + |pat|..], pat);
      assert ([s[..k]] + rest)[1..] == rest;
      SplitStrJoin(s[k + |pat|..], pat);
      assert s == s[..k] + s[k..k + |pat|] + s[k + |pat|..];
  }

  /**
   * `split(pat)` matches left to right: every piece but the last ends at the
   * leftmost occurrence of `pat` (none starts inside the piece, even one
   * reaching into the match), and the last piece holds no occurrence.
   */
  lemma {:induction false} SplitStrLeftmost(s: string, pat: string)
    requires |pat| > 0
    ensures LeftmostPieces(SplitStr(s, pat), pat)
    decreases |s|
  {
    match FindStr(s, pat, 0)
    case None =>
      assert SplitStr(s, pat) == [s];
    case Some(k) =>
      assert SplitStr(s, pat) == [s[..k]] + SplitStr(s[k + |pat|..], pat);
      SplitStrLeftmost(s[k + |pat|..], pat);
      LeftmostPiece(s, pat, k);
      var rest := SplitStr(s[k + |pat|..], pat);
      assert SplitStr(s, pat)[1..] == rest;
  }

  /**
   * Pieces cut at leftmost matches: each piece but the last, followed by
   * `pat`, first matches `pat` at its end, and the last holds no match.
   */
  predicate LeftmostPieces(parts: seq<string>, pat: string)
    decreases |parts|
  {
    |parts| >= 1 &&
    if |parts| == 1 then FindStr(parts[0], pat, 0) == None
    else FindStr(parts[0] + pat, pat, 0) == Some(|parts[0]|) && LeftmostPieces(parts[1..], pat)
  }

  /** The piece before the leftmost occurrence, followed by `pat`, first matches at its end. */
  lemma LeftmostPiece(s: string, pat: string, k: nat)
    requires |pat| > 0 && FindStr(s, pat, 0) == Some(k)
    ensures FindStr(s[..k] + pat, pat, 0) == Some(k)
  {
    LeftmostPrefix(s, pat, k);
  }

  lemma LeftmostPrefix(s: string, pat: string, k: nat)
    requires k + |pat| <= |s| && s[k..k + |pat|] == pat
    requires forall j :: 0 <= j < k ==> !StartsWith(s[j..], pat)
    ensures FindStr(s[..k] + pat, pat, 0) == Some(k)
  {
    var n := k + |pat|;
    var t := s[..n];
    assert s[..k] + pat == t by {
      assert s[..n] == s[..k] + s[k..n];
    }
    forall j | 0 <= j < k
      ensures !StartsWith(t[j..], pat)
    {
      assert !StartsWith(s[j..], pat);
      assert t[j..] == s[j..n];
    }
    assert t[k..] == pat;
    FindStrFirst(t, pat, 0, k);
  }

  /** `FindStr` from `from` gives `k` when `pat` starts at `k` and at no index in between. */
  lemma {:induction false} FindStrFirst(s: string, pat: string, from: nat, k: nat)
    requires from <= k && k + |pat| <= |s| && s[k..k + |pat|] == pat
    requires forall j :: from <= j < k ==> !StartsWith(s[j..], pat)
    ensures FindStr(s, pat, from) == Some(k)
    decreases k - from
  {
    if from < k {
      assert !StartsWith(s[from..], pat);
      FindStrFirst(s, pat, from + 1, k);
    } else {
      assert StartsWith(s[from..], pat);
    }
  }

  /** No piece of a split is longer than the string split. */
  lemma {:induction false} SplitStrShorter(s: string, pat: string)
    requires |pat| > 0
    ensures forall i :: 0 <= i < |SplitStr(s, pat)| ==> |SplitStr(s, pat)[i]| <= |s|
    decreases |s|
  {
    match FindStr(s, pat, 0)
    case None =>
    case Some(i) =>
      SplitStrShorter(s[i + |pat|..], pat);
  }

  /** The first index at or after `from` where `pat` occurs in `s`. */
  function FindStr(s: string, pat: string, from: nat): (r: Option<nat>)
    requires from <= |s|
    ensures r.Some? ==> from <= r.value && r.value + |pat| <= |s| && s[r.value..r.value + |pat|] == pat
    ensures r.Some? ==> forall j :: from <= j < r.value ==> !StartsWith(s[j..], pat)
    ensures r.None? ==> forall j :: from <= j <= |s| ==> !StartsWith(s[j..], pat)
    decreases |s| - from
  {
    if StartsWith(s[from..], pat) then Some(from)
    else if from == |s| then None
    else FindStr(s, pat, from + 1)
  }

  /** Rust's `char::is_whitespace`: the Unicode White_Space characters. */
  predicate IsWhitespace(c: char) {
    c == ' ' || ('\U{9}' <= c <= '\U{D}') || c == '\U{85}' || c == '\U{A0}' || c == '\U{1680}'
    || ('\U{2000}' <= c <= '\U{200A}') || c == '\U{2028}' || c == '\U{2029}' || c == '\U{202F}'
    || c == '\U{205F}' || c == '\U{3000}'
  }

  /** `s.split_whitespace()`: the maximal runs of non-whitespace characters, in order. */
  function SplitWhitespace(s: string): (tokens: seq<string>)
    ensures forall i :: 0 <= i < |tokens| ==> tokens[i] != []
    ensures forall i, j :: 0 <= i < |tokens| && 0 <= j < |tokens[i]| ==> !IsWhitespace(tokens[i][j])
    decreases |s|
  {
    if |s| == 0 then []
    else if IsWhitespace(s[0]) then SplitWhitespace(s[1..])
    else
      var n := TokenLength(s);
      [s[..n]] + SplitWhitespace(s[n..])
  }

  /**
   * The tokens are the non-whitespace characters of `s`, in order, one
   * token per maximal run of them.
   */
  lemma {:induction false} SplitWhitespaceCovers(s: string)
    ensures Concat(SplitWhitespace(s)) == Unspaced(s)
    ensures |SplitWhitespace(s)| == Runs(s)
    decreases |s|
  {
    if |s| == 0 {
    } else if IsWhitespace(s[0]) {
      SplitWhitespaceCovers(s[1..]);
    } else {
      var n := TokenLength(s);
      var rest := SplitWhitespace(s[n..]);
      SplitWhitespaceCovers(s[n..]);
      assert s == s[..n] + s[n..];
      UnspacedToken(s[..n], s[n..]);
      RunsToken(s, n);
      assert ([s[..n]] + rest)[1..] == rest;
    }
  }

  /** The pieces of a sequence, written one after another. */
  function Concat<T>(parts: seq<seq<T>>): seq<T> {
    if |parts| == 0 then [] else parts[0] + Concat(parts[1..])
  }

  /** `s` with every whitespace character taken out. */
  function Unspaced(s: string): string {
    if |s| == 0 then [] else (if IsWhitespace(s[0]) then [] else [s[0]]) + Unspaced(s[1..])
  }

  /** The number of maximal runs of non-whitespace characters in `s`. */
  function Runs(s: string): nat {
    if |s| == 0 then 0
    else if IsWhitespace(s[0]) then Runs(s[1..])
    else (if |s| == 1 || IsWhitespace(s[1]) then 1 else 0) + Runs(s[1..])
  }

  /** A run without whitespace is kept whole by `Unspaced`. */
  lemma {:induction false} UnspacedToken(t: string, rest: string)
    requires forall j :: 0 <= j < |t| ==> !IsWhitespace(t[j])
    ensures Unspaced(t + rest) == t + Unspaced(rest)
  {
    if |t| > 0 {
      var u := t + rest;
      assert u[0] == t[0] && !IsWhitespace(t[0]);
      assert u[1..] == t[1..] + rest;
      UnspacedToken(t[1..], rest);
      assert Unspaced(u) == [t[0]] + Unspaced(u[1..]);
      assert t == [t[0]] + t[1..];
      assert [t[0]] + (t[1..] + Unspaced(rest)) == t + Unspaced(rest);
    } else {
      assert t + rest == rest;
    }
  }

  /** The run at the start of `s`, `n` characters long, is one run. */
  lemma {:induction false} RunsToken(s: string, n: nat)
    requires 0 < n <= |s| && (n == |s| || IsWhitespace(s[n]))
    requires forall j :: 0 <= j < n ==> !IsWhitespace(s[j])
    ensures Runs(s) == 1 + Runs(s[n..])
  {
    if n > 1 {
      assert s[1..][n - 1..] == s[n..];
      RunsToken(s[1..], n - 1);
    } else if |s| > 1 {
      assert s[1..] == s[n..];
    }
  }

  /** The length of the non-whitespace run at the start of `s`. */
  function TokenLength(s: string): (n: nat)
    ensures n <= |s|
    ensures forall j :: 0 <= j < n ==> !IsWhitespace(s[j])
    ensures n == |s| || IsWhitespace(s[n])
    ensures |s| > 0 && !IsWhitespace(s[0]) ==> n > 0
  {
    if |s| == 0 || IsWhitespace(s[0]) then 0 else 1 + TokenLength(s[1..])
  }

  /** `s.trim_end()`: `s` without its trailing whitespace. */
  function TrimEnd(s: string): (r: string)
    ensures |r| <= |s| && r == s[..|r|]
    ensures r == [] || !IsWhitespace(r[|r| - 1])
    ensures forall j :: |r| <= j < |s| ==> IsWhitespace(s[j])
  {
    if |s| == 0 || !IsWhitespace(s[|s| - 1]) then s else TrimEnd(s[..|s| - 1])
  }

  // ---------------------------------------------------------------------
  // Numbers

  predicate IsDigit(c: char) { '0' <= c <= '9' }

  function DigitValue(c: char): (d: nat)
    requires IsDigit(c)
    ensures d <= 9
  {
    (c as int - '0' as int) as nat
  }

  predicate AllDigits(s: string) {
    forall i :: 0 <= i < |s| ==> IsDigit(s[i])
  }

  /** The value of a string of decimal digits, most significant first. */
  function DecimalValue(s: string): nat
    requires AllDigits(s)
  {
    if |s| == 0 then 0 else 10 * DecimalValue(s[..|s| - 1]) + DigitValue(s[|s| - 1])
  }

  /** Writes `n` in decimal without leading zeros ("0" for zero). */
  function Decimal(n: nat): (s: string)
    ensures |s| > 0 && AllDigits(s)
  {
    if n < 10 then [('0' as int + n) as char] else Decimal(n / 10) + [('0' as int + n % 10) as char]
  }

  lemma {:induction false} DecimalRoundTrip(n: nat)
    ensures DecimalValue(Decimal(n)) == n
  {
    if n >= 10 {
      DecimalRoundTrip(n / 10);
      var s := Decimal(n);
      assert s[..|s| - 1] == Decimal(n / 10);
    }
  }

  /**
   * `s.parse::<uN>()`: an optional '+' followed by at least one decimal digit,
   * rejected when the value exceeds `max` (the type's largest value).
   */
  function ParseNat(s: string, max: nat): (r: Option<nat>)
    ensures r.Some? <==> IsDecimal(Unsigned(s)) && DecimalValue(Unsigned(s)) <= max
    ensures r.Some? ==> r.value <= max && r.value == DecimalValue(Unsigned(s))
  {
    var digits := Unsigned(s);
    if IsDecimal(digits) && DecimalValue(digits) <= max then Some(DecimalValue(digits))
    else None
  }

  /** The text of a number after one optional leading '+'. */
  function Unsigned(s: string): string {
    if |s| > 0 && s[0] == '+' then s[1..] else s
  }

  /** At least one decimal digit and nothing else. */
  predicate IsDecimal(s: string) {
    |s| > 0 && AllDigits(s)
  }

  /** Any character other than a digit, save one leading '+', makes the parse fail. */
  lemma ParseNatRejects(s: string, max: nat, i: nat)
    requires i < |s| && !IsDigit(s[i]) && !(i == 0 && s[i] == '+')
    ensures ParseNat(s, max) == None
  {
    if |s| > 0 && s[0] == '+' {
      assert !IsDigit(s[1..][i - 1]);
    } else {
      assert !IsDigit(s[i]);
    }
  }

  /** `s.parse::<usize>()` */
  function ParseUsize(s: string): Option<nat> { ParseNat(s, USIZE_MAX) }

  /** `x.parse::<usize>().unwrap()`. */
  function ParseNumber(token: string): Result<nat> {
    match ParseUsize(token)
    case None => Panic("invalid digit found in string")
    case Some(v) => Ok(v)
  }

  /** `s.parse::<isize>()`: an optional sign followed by at least one decimal digit. */
  function ParseIsize(s: string): (r: Option<int>)
    ensures r.Some? ==> ISIZE_MIN <= r.value <= ISIZE_MAX
    ensures |s| > 0 && s[0] == '-' ==>
      (r.Some? <==> IsDecimal(s[1..]) && DecimalValue(s[1..]) <= -ISIZE_MIN)
    ensures |s| > 0 && s[0] == '-' && r.Some? ==> IsDecimal(s[1..]) && r.value == 0 - DecimalValue(s[1..]) as int
    ensures !(|s| > 0 && s[0] == '-') ==>
      (r.Some? <==> ParseNat(s, ISIZE_MAX).Some?) && (r.Some? ==> r.value == ParseNat(s, ISIZE_MAX).value)
  {
    if |s| > 0 && s[0] == '-' then
      var digits := s[1..];
      if |digits| > 0 && AllDigits(digits) && DecimalValue(digits) <= -ISIZE_MIN then Some(0 - DecimalValue(digits) as int)
      else None
    else
      match ParseNat(s, ISIZE_MAX)
      case None => None
      case Some(n) => Some(n as int)
  }

  predicate IsHexDigit(c: char) { '0' <= c <= '9' || 'a' <= c <= 'f' || 'A' <= c <= 'F' }

  function HexDigitValue(c: char): (d: nat)
    requires IsHexDigit(c)
    ensures d <= 15
  {
    if '0' <= c <= '9' then (c as int - '0' as int) as nat
    else if 'a' <= c <= 'f' then (c as int - 'a' as int + 10) as nat
    else (c as int - 'A' as int + 10) as nat
  }

  predicate AllHexDigits(s: string) {
    forall i :: 0 <= i < |s| ==> IsHexDigit(s[i])
  }

  /** The value of a string of hexadecimal digits, most significant first. */
  function HexValue(s: string): nat
    requires AllHexDigits(s)
  {
    if |s| == 0 then 0 else 16 * HexValue(s[..|s| - 1]) + HexDigitValue(s[|s| - 1])
  }

  /**
   * `uN::from_str_radix(s, 16)`: an optional '+' followed by at least one
   * hexadecimal digit of either case, rejected above `max`.
   */
  function ParseHex(s: string, max: nat): (r: Option<nat>)
    ensures r.Some? <==> |Unsigned(s)| > 0 && AllHexDigits(Unsigned(s)) && HexValue(Unsigned(s)) <= max
    ensures r.Some? ==> r.value <= max && r.value == HexValue(Unsigned(s))
  {
    var digits := Unsigned(s);
    if |digits| > 0 && AllHexDigits(digits) && HexValue(digits) <= max then Some(HexValue(digits))
    else None
  }

  /** The lower-case hexadecimal digit of a value below 16. */
  function HexDigit(d: nat): (c: char)
    requires d < 16
    ensures IsHexDigit(c) && HexDigitValue(c) == d
  {
    if d < 10 then ('0' as int + d) as char else ('a' as int + d - 10) as char
  }

  /** A byte written as two hexadecimal digits, as in a colour code "#rrggbb". */
  function Hex2(b: nat): string
    requires b <= U8_MAX
  {
    [HexDigit(b / 16), HexDigit(b % 16)]
  }

  /** Reading two hexadecimal digits into a `u8` gives back the byte they write. */
  lemma ParseHex2(b: nat)
    requires b <= U8_MAX
    ensures ParseHex(Hex2(b), U8_MAX) == Some(b)
  {
    var s := Hex2(b);
    assert s[..1] == [HexDigit(b / 16)];
    assert HexValue(s[..1][..0]) == 0;
    assert HexValue(s) == 16 * (b / 16) + b % 16;
  }

  lemma ParseDecimal(n: nat, max: nat)
    requires n <= max
    ensures ParseNat(Decimal(n), max) == Some(n)
    ensures ParseNat("+" + Decimal(n), max) == Some(n)
  {
    DecimalRoundTrip(n);
    assert ("+" + Decimal(n))[1..] == Decimal(n);
  }

  /** An `isize` written in decimal, with a '-' before a negative one. */
  function SignedDecimal(n: int): string {
    if n < 0 then "-" + Decimal(-n) else Decimal(n)
  }

  /** `parse::<isize>()` reads back every `isize` written in decimal. */
  lemma ParseSignedDecimal(n: int)
    requires ISIZE_MIN <= n <= ISIZE_MAX
    ensures ParseIsize(SignedDecimal(n)) == Some(n)
  {
    if n < 0 {
      DecimalRoundTrip(-n);
      assert SignedDecimal(n)[1..] == Decimal(-n);
    } else {
      ParseDecimal(n, ISIZE_MAX);
    }
  }

  // ---------------------------------------------------------------------
  // Folds

  function Sum(s: seq<int>): int {
    if |s| == 0 then 0 else Sum(s[..|s| - 1]) + s[|s| - 1]
  }

  /**
   * The sum of `f` over `xs`, item by item from the front; the first item
   * whose value panics makes the whole sum panic.
   */
  function SumResults<T>(f: T -> Result<nat>, xs: seq<T>): Result<nat> {
    if |xs| == 0 then Ok(0)
    else match SumResults(f, xs[..|xs| - 1])
      case Panic(why) => Panic(why)
      case Ok(sum) =>
        match f(xs[|xs| - 1])
        case Panic(why) => Panic(why)
        case Ok(v) => Ok(sum + v)
  }

  /**
   * The accumulating loop `for x in xs { total += f(x) }` in which evaluating
   * `f` may panic: it stops at the first panic.
   */
  method SumEach<T>(f: T -> Result<nat>, xs: seq<T>) returns (r: Result<nat>)
    ensures r == SumResults(f, xs)
  {
    var total := 0;
    for i := 0 to |xs|
      invariant SumResults(f, xs[..i]) == Ok(total)
    {
      var v := f(xs[i]);
      if v.Panic? {
        assert xs[..i + 1][..i] == xs[..i];
        SumResultsPanic(f, xs, i + 1);
        return v;
      }
      SumResultsStep(f, xs, i, total, v.value);
      total := total + v.value;
    }
    assert xs[..|xs|] == xs;
    return Ok(total);
  }

  /** The sum panics iff some item panics. */
  lemma {:induction false} SumResultsOk<T>(f: T -> Result<nat>, xs: seq<T>)
    ensures SumResults(f, xs).Ok? <==> forall i :: 0 <= i < |xs| ==> f(xs[i]).Ok?
  {
    if |xs| > 0 {
      var prefix := xs[..|xs| - 1];
      SumResultsOk(f, prefix);
      assert forall i :: 0 <= i < |prefix| ==> prefix[i] == xs[i];
    }
  }

  /** One more item adds its value. */
  lemma SumResultsStep<T>(f: T -> Result<nat>, xs: seq<T>, k: nat, sum: nat, v: nat)
    requires k < |xs| && SumResults(f, xs[..k]) == Ok(sum) && f(xs[k]) == Ok(v)
    ensures SumResults(f, xs[..k + 1]) == Ok(sum + v)
  {
    assert xs[..k + 1][..k] == xs[..k];
  }

  /** Once a prefix panics, the whole sum panics the same way. */
  lemma {:induction false} SumResultsPanic<T>(f: T -> Result<nat>, xs: seq<T>, k: nat)
    requires k <= |xs| && SumResults(f, xs[..k]).Panic?
    ensures SumResults(f, xs) == SumResults(f, xs[..k])
  {
    if k < |xs| {
      var prefix := xs[..|xs| - 1];
      assert prefix[..k] == xs[..k];
      SumResultsPanic(f, prefix, k);
    } else {
      assert xs[..k] == xs;
    }
  }

  /** `f` applied to each item in turn, stopping at the first panic. */
  function MapResults<T, U>(f: T -> Result<U>, xs: seq<T>): (r: Result<seq<U>>)
    ensures r.Ok? ==> |r.value| == |xs|
  {
    if |xs| == 0 then Ok([])
    else match MapResults(f, xs[..|xs| - 1])
      case Panic(why) => Panic(why)
      case Ok(ys) =>
        match f(xs[|xs| - 1])
        case Panic(why) => Panic(why)
        case Ok(y) => Ok(ys + [y])
  }

  /** The map panics iff some item panics; otherwise item `i` of the result is `f` of item `i`. */
  lemma {:induction false} MapResultsOk<T, U>(f: T -> Result<U>, xs: seq<T>)
    ensures MapResults(f, xs).Ok? <==> forall i :: 0 <= i < |xs| ==> f(xs[i]).Ok?
    ensures MapResults(f, xs).Ok? ==> forall i :: 0 <= i < |xs| ==> f(xs[i]) == Ok(MapResults(f, xs).value[i])
  {
    if |xs| > 0 {
      var prefix := xs[..|xs| - 1];
      MapResultsOk(f, prefix);
      assert forall i :: 0 <= i < |prefix| ==> prefix[i] == xs[i];
    }
  }

  lemma MapResultsStep<T, U>(f: T -> Result<U>, xs: seq<T>, k: nat, ys: seq<U>, y: U)
    requires k < |xs| && MapResults(f, xs[..k]) == Ok(ys) && f(xs[k]) == Ok(y)
    ensures MapResults(f, xs[..k + 1]) == Ok(ys + [y])
  {
    assert xs[..k + 1][..k] == xs[..k];
  }

  lemma {:induction false} MapResultsPanic<T, U>(f: T -> Result<U>, xs: seq<T>, k: nat)
    requires k < |xs| && MapResults(f, xs[..k]).Ok? && f(xs[k]).Panic?
    ensures MapResults(f, xs) == Panic(f(xs[k]).reason)
    decreases |xs|
  {
    assert xs[..k + 1][..k] == xs[..k];
    if k + 1 < |xs| {
      var prefix := xs[..|xs| - 1];
      assert prefix[..k] == xs[..k];
      MapResultsPanic(f, prefix, k);
    } else {
      assert xs[..k + 1] == xs;
    }
  }

  /** `xs.iter().fold(init, min)`: the least of `init` and the items. */
  function MinFrom(init: nat, xs: seq<nat>): (m: nat)
    ensures m <= init && forall i :: 0 <= i < |xs| ==> m <= xs[i]
    ensures m == init || exists i :: 0 <= i < |xs| && m == xs[i]
  {
    if |xs| == 0 then init
    else
      var m := MinFrom(init, xs[..|xs| - 1]);
      assert forall i :: 0 <= i < |xs| - 1 ==> xs[..|xs| - 1][i] == xs[i];
      if xs[|xs| - 1] < m then xs[|xs| - 1] else m
  }

  lemma SumAppend(s: seq<int>, x: int)
    ensures Sum(s + [x]) == Sum(s) + x
  {
    assert (s + [x])[..|s|] == s;
  }
}
