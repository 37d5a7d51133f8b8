/**
 * Day 19: machine parts sorted by workflows.  A part has four ratings
 * (x, m, a, s); a workflow is a list of rules "x>10:dest" ending in a bare
 * destination; a part starts at workflow "in" and is accepted when it ends at
 * "A" and rejected at "R".  Part 1 sums the ratings of the accepted parts;
 * part 2 counts the accepted rating combinations in 1..4000 by splitting
 * four-dimensional ranges along the rules.
 */
module Day19 {
  import opened Text

  // ---------------------------------------------------------------------
  // Attributes, parts and ranges

  const AttrNames: seq<char> := ['x', 'm', 'a', 's']

  /** `ATTR_NAMES.iter().position(..)`: the index of an attribute name. */
  function AttrIndex(c: char): (r: Option<nat>)
    ensures r.None? <==> c !in AttrNames
    ensures r.Some? ==> r.value < 4 && AttrNames[r.value] == c
  {
    if c == 'x' then Some(0) else if c == 'm' then Some(1) else if c == 'a' then Some(2)
    else if c == 's' then Some(3) else None
  }

  type Ratings = s: seq<nat> | |s| == 4 witness [0, 0, 0, 0]

  /** A machine part: its four ratings, in the order x, m, a, s. */
  datatype MachinePart = MachinePart(values: Ratings)

  /** `get_score`: the sum of the four ratings. */
  function Score(p: MachinePart): nat {
    p.values[0] + p.values[1] + p.values[2] + p.values[3]
  }

  /** An inclusive range of ratings `start..=end`; empty when `end < start`. */
  datatype Interval = Interval(start: nat, end: nat)

  /** `MachinePartRange`: one rating range per attribute. */
  datatype PartRange = PartRange(x: Interval, m: Interval, a: Interval, s: Interval) {
    /** The interval of attribute `i`, in the order x, m, a, s. */
    function Get(i: nat): Interval
      requires i < 4
    {
      if i == 0 then x else if i == 1 then m else if i == 2 then a else s
    }
  }

  const MaxRating: nat := 4000

  /** `MachinePartRange::new`: every attribute ranges over 1..=4000. */
  function NewRange(): (r: PartRange)
    ensures forall i :: 0 <= i < 4 ==> r.Get(i) == Interval(1, MaxRating)
  {
    PartRange(Interval(1, MaxRating), Interval(1, MaxRating), Interval(1, MaxRating), Interval(1, MaxRating))
  }

  /** The number of ratings in an interval: `(end + 1).saturating_sub(start)`. */
  function Len(iv: Interval): (n: nat)
    ensures n == 0 <==> iv.end < iv.start
    ensures n > 0 ==> n == iv.end + 1 - iv.start
  {
    if iv.end + 1 >= iv.start then iv.end + 1 - iv.start else 0
  }

  /** `size`: the product of the four interval lengths. */
  function Size(r: PartRange): nat {
    Mul(Mul(Mul(Len(r.x), Len(r.m)), Len(r.a)), Len(r.s))
  }

  function Mul(a: nat, b: nat): nat {
    a * b
  }

  /**
   * `is_empty`, which tests `size() == 0`: written here as "some interval is
   * empty", which `IsEmptySize` proves to be the same test.
   */
  predicate IsEmpty(r: PartRange) {
    r.x.end < r.x.start || r.m.end < r.m.start || r.a.end < r.a.start || r.s.end < r.s.start
  }

  /** A range is empty iff its size is zero. */
  lemma IsEmptySize(r: PartRange)
    ensures IsEmpty(r) <==> Size(r) == 0
  {
    var a, b, c, d := Len(r.x), Len(r.m), Len(r.a), Len(r.s);
    if a > 0 && b > 0 && c > 0 && d > 0 {
      assert Mul(a, b) > 0;
      assert Mul(Mul(a, b), c) > 0;
      assert Mul(Mul(Mul(a, b), c), d) > 0;
    }
  }

  /** The full range holds 4000^4 combinations. */
  lemma NewRangeSize()
    ensures Size(NewRange()) == 256_000_000_000_000
  {
  }

  /** `p` lies in `r`. */
  predicate Contains(r: PartRange, p: MachinePart) {
    forall i :: 0 <= i < 4 ==> r.Get(i).start <= p.values[i] <= r.Get(i).end
  }

  /** A range is empty iff no part lies in it. */
  lemma IsEmptyNoPart(r: PartRange)
    ensures IsEmpty(r) <==> forall p: MachinePart :: !Contains(r, p)
  {
    if !IsEmpty(r) {
      var p := MachinePart([r.Get(0).start, r.Get(1).start, r.Get(2).start, r.Get(3).start]);
      assert Contains(r, p);
    } else {
      forall p: MachinePart ensures !Contains(r, p) {
        assert !(r.Get(0).start <= p.values[0] <= r.Get(0).end) || !(r.Get(1).start <= p.values[1] <= r.Get(1).end) ||
          !(r.Get(2).start <= p.values[2] <= r.Get(2).end) || !(r.Get(3).start <= p.values[3] <= r.Get(3).end);
      }
    }
  }

  /** `with`: a copy of `r` with the interval of attribute `i` replaced. */
  function With(r: PartRange, i: nat, iv: Interval): (res: PartRange)
    requires i < 4
    ensures res.Get(i) == iv
    ensures forall j :: 0 <= j < 4 && j != i ==> res.Get(j) == r.Get(j)
  {
    if i == 0 then r.(x := iv) else if i == 1 then r.(m := iv) else if i == 2 then r.(a := iv) else r.(s := iv)
  }

  // ---------------------------------------------------------------------
  // Conditions

  datatype Cmp = Greater | Less

  /** A rule: when the attribute compares with `value`, go to `destination`. */
  datatype Condition = Condition(attribute: char, cmp: Cmp, value: nat, destination: string)

  /** The comparison of a rule holds for a rating. */
  predicate Holds(c: Condition, rating: nat) {
    (c.cmp == Greater && rating > c.value) || (c.cmp == Less && rating < c.value)
  }

  /**
   * `Condition::check`: the destination when the part satisfies the rule;
   * panics when the attribute is not one of x, m, a, s.
   */
  function Check(c: Condition, p: MachinePart): (r: Result<Option<string>>)
    ensures r.Ok? <==> c.attribute in AttrNames
    ensures r.Ok? ==> (r.value.Some? <==> Holds(c, p.values[AttrIndex(c.attribute).value]))
    ensures r.Ok? && r.value.Some? ==> r.value.value == c.destination
  {
    match AttrIndex(c.attribute)
    case None => Panic("unknown attribute")
    case Some(i) => if Holds(c, p.values[i]) then Ok(Some(c.destination)) else Ok(None)
  }

  /**
   * `split_by`: the part of the range that satisfies the rule and the rest.
   * For '>' the first half starts at `max(start, value + 1)` and the second
   * ends just below it; for '<' the first half ends at `min(end, value - 1)`
   * and the second starts just above it.  Panics on an unknown attribute,
   * and on '<' with value 0, where `value - 1` underflows.
   */
  function SplitBy(r: PartRange, c: Condition): (res: Result<(PartRange, PartRange)>)
    ensures res.Ok? <==> c.attribute in AttrNames && (c.cmp == Greater || c.value >= 1)
  {
    match AttrIndex(c.attribute)
    case None => Panic("unknown attribute")
    case Some(i) =>
      var iv := r.Get(i);
      if c.cmp == Greater then
        var newStart := if iv.start < c.value + 1 then c.value + 1 else iv.start;
        Ok((With(r, i, Interval(newStart, iv.end)), With(r, i, Interval(iv.start, newStart - 1))))
      else if c.value == 0 then Panic("attempt to subtract with overflow")
      else
        var newEnd := if iv.end < c.value - 1 then iv.end else c.value - 1;
        Ok((With(r, i, Interval(iv.start, newEnd)), With(r, i, Interval(newEnd + 1, iv.end))))
  }

  /** Only the rule's attribute changes; the other three intervals are copied into both halves. */
  lemma SplitByOthersUnchanged(r: PartRange, c: Condition, j: nat)
    requires SplitBy(r, c).Ok? && j < 4 && AttrNames[j] != c.attribute
    ensures SplitBy(r, c).value.0.Get(j) == r.Get(j)
    ensures SplitBy(r, c).value.1.Get(j) == r.Get(j)
  {
  }

  /**
   * Every part of the first half satisfies the rule, no part of the second
   * does, and every part of the range lies in one of the two halves.
   */
  lemma SplitBySeparates(r: PartRange, c: Condition, p: MachinePart)
    requires SplitBy(r, c).Ok?
    ensures Contains(SplitBy(r, c).value.0, p) ==> Check(c, p) == Ok(Some(c.destination))
    ensures Contains(SplitBy(r, c).value.1, p) ==> Check(c, p) == Ok(None)
    ensures Contains(r, p) ==> Contains(SplitBy(r, c).value.0, p) || Contains(SplitBy(r, c).value.1, p)
  {
    var i := AttrIndex(c.attribute).value;
    var halves := SplitBy(r, c).value;
    if Contains(r, p) && !Contains(halves.0, p) {
      forall j | 0 <= j < 4 ensures halves.1.Get(j).start <= p.values[j] <= halves.1.Get(j).end {
        if j != i {
          assert halves.0.Get(j) == r.Get(j);
        }
      }
    }
  }

  /** The two halves share no part. */
  lemma SplitByDisjoint(r: PartRange, c: Condition, p: MachinePart)
    requires SplitBy(r, c).Ok?
    ensures !(Contains(SplitBy(r, c).value.0, p) && Contains(SplitBy(r, c).value.1, p))
  {
    SplitBySeparates(r, c, p);
  }

  /** The product of the three lengths other than attribute `i`. */
  function Rest(r: PartRange, i: nat): nat
    requires i < 4
  {
    if i == 0 then Len(r.m) * Len(r.a) * Len(r.s)
    else if i == 1 then Len(r.x) * Len(r.a) * Len(r.s)
    else if i == 2 then Len(r.x) * Len(r.m) * Len(r.s)
    else Len(r.x) * Len(r.m) * Len(r.a)
  }

  lemma SizeFactor(r: PartRange, i: nat)
    requires i < 4
    ensures Size(r) == Len(r.Get(i)) * Rest(r, i)
  {
    Factor4(Len(r.x), Len(r.m), Len(r.a), Len(r.s));
  }

  lemma Factor4(a: nat, b: nat, c: nat, d: nat)
    ensures a * b * c * d == a * (b * c * d)
    ensures a * b * c * d == b * (a * c * d)
    ensures a * b * c * d == c * (a * b * d)
    ensures a * b * c * d == d * (a * b * c)
  {
    assert a * b == b * a;
    assert a * b * c == a * (b * c) == b * (a * c) == c * (a * b);
  }

  lemma RestWith(r: PartRange, i: nat, iv: Interval)
    requires i < 4
    ensures Rest(With(r, i, iv), i) == Rest(r, i)
  {
  }

  /**
   * When the threshold does not lie outside the range (start - 1 <= value <=
   * end for '>', start <= value <= end + 1 for '<'), the sizes of the two
   * halves add up to the size of the range.
   */
  lemma SplitBySizes(r: PartRange, c: Condition)
    requires SplitBy(r, c).Ok?
    requires var iv := r.Get(AttrIndex(c.attribute).value);
      if c.cmp == Greater then iv.start <= c.value + 1 && c.value <= iv.end
      else iv.start <= c.value && c.value <= iv.end + 1
    ensures Size(SplitBy(r, c).value.0) + Size(SplitBy(r, c).value.1) == Size(r)
  {
    var i := AttrIndex(c.attribute).value;
    var halves := SplitBy(r, c).value;
    SizeFactor(r, i);
    SizeFactor(halves.0, i);
    SizeFactor(halves.1, i);
    var rest := Rest(r, i);
    assert Rest(halves.0, i) == rest && Rest(halves.1, i) == rest;
    assert Len(halves.0.Get(i)) + Len(halves.1.Get(i)) == Len(r.Get(i));
    calc {
      Size(halves.0) + Size(halves.1);
      Len(halves.0.Get(i)) * rest + Len(halves.1.Get(i)) * rest;
      (Len(halves.0.Get(i)) + Len(halves.1.Get(i))) * rest;
      Size(r);
    }
  }

  /**
   * The quirk of `split_by`: with '>' and a threshold beyond the range's end,
   * the second half reaches past the end of the range it was split from.
   */
  lemma SplitByWidens()
    ensures var r := With(NewRange(), 0, Interval(1, 1000));
      SplitBy(r, Condition('x', Greater, 2000, "A")) == Ok((With(r, 0, Interval(2001, 1000)), With(r, 0, Interval(1, 2000))))
  {
  }

  // ---------------------------------------------------------------------
  // Parsing workflows

  /** The index of the first '<' or '>'. */
  function FindComparison(s: string): (r: Option<nat>)
    ensures r.None? <==> forall j :: 0 <= j < |s| ==> s[j] != '<' && s[j] != '>'
    ensures r.Some? ==> r.value < |s| && (s[r.value] == '<' || s[r.value] == '>')
    ensures r.Some? ==> forall j :: 0 <= j < r.value ==> s[j] != '<' && s[j] != '>'
  {
    if |s| == 0 then None
    else if s[0] == '<' || s[0] == '>' then Some(0)
    else match FindComparison(s[1..])
      case None => None
      case Some(i) => Some(i + 1)
  }

  /**
   * `Condition::from_str`: "a>v:dest" or "a<v:dest" (attribute = first
   * character, value between the comparison and the first ':'); a rule
   * without a comparison is the catch-all "x>0:rule".  Panics without ':',
   * when ':' comes before the comparison, or when the value is not a `usize`.
   */
  function ParseCondition(description: string): (r: Result<Condition>)
    ensures (forall j :: 0 <= j < |description| ==> description[j] != '<' && description[j] != '>')
      ==> r == Ok(Condition('x', Greater, 0, description))
  {
    match FindComparison(description)
    case None => Ok(Condition('x', Greater, 0, description))
    case Some(op) =>
      match IndexOf(description, ':')
      case None => Panic("no colon")
      case Some(colon) =>
        if colon < op + 1 then Panic("slice index starts after its end")
        else match ParseUsize(description[op + 1..colon])
          case None => Panic("value is not a usize")
          case Some(v) =>
            Ok(Condition(description[0], if description[op] == '>' then Greater else Less, v, description[colon + 1..]))
  }

  /** The catch-all rule matches every part whose x rating is at least 1 ... */
  lemma CatchAllMatches(dest: string, p: MachinePart)
    ensures Check(Condition('x', Greater, 0, dest), p) == (if p.values[0] >= 1 then Ok(Some(dest)) else Ok(None))
  {
  }

  /** ... and sends a whole range whose x interval starts at 1 or later to the first half. */
  lemma CatchAllSplit(dest: string, r: PartRange)
    requires r.Get(0).start >= 1
    ensures SplitBy(r, Condition('x', Greater, 0, dest)) == Ok((r, With(r, 0, Interval(r.Get(0).start, r.Get(0).start - 1))))
    ensures IsEmpty(SplitBy(r, Condition('x', Greater, 0, dest)).value.1)
  {
    var second := With(r, 0, Interval(r.Get(0).start, r.Get(0).start - 1));
    assert second.Get(0).end < second.Get(0).start;
  }

  /** `Workflow::from_str`: the comma-separated rules. */
  function ParseWorkflow(description: string): Result<seq<Condition>> {
    MapResults(ParseCondition, Split(description, ','))
  }

  /**
   * `Workflow::process`: the destination of the first rule the part
   * satisfies; panics when a rule before it names an unknown attribute, or
   * when no rule matches (`unreachable!()`).
   */
  function Process(conditions: seq<Condition>, p: MachinePart): Result<string> {
    if |conditions| == 0 then Panic("unreachable")
    else match Check(conditions[0], p)
      case Panic(why) => Panic(why)
      case Ok(Some(dest)) => Ok(dest)
      case Ok(None) => Process(conditions[1..], p)
  }

  /** Rule `i` is the first rule the part satisfies, and every rule before it can be checked. */
  predicate FirstMatch(conditions: seq<Condition>, p: MachinePart, i: nat) {
    i < |conditions| && Check(conditions[i], p).Ok? && Check(conditions[i], p).value.Some? &&
    forall j :: 0 <= j < i ==> Check(conditions[j], p) == Ok(None)
  }

  /**
   * `process` succeeds exactly when some rule is the first match, and then
   * returns that rule's destination.
   */
  lemma {:induction false} ProcessFirstMatch(conditions: seq<Condition>, p: MachinePart)
    ensures Process(conditions, p).Ok? <==> exists i: nat :: FirstMatch(conditions, p, i)
    ensures forall i: nat :: FirstMatch(conditions, p, i) ==> Process(conditions, p) == Ok(conditions[i].destination)
  {
    if |conditions| > 0 {
      var c := Check(conditions[0], p);
      if c.Ok? && c.value.Some? {
        assert FirstMatch(conditions, p, 0);
        forall i: nat | FirstMatch(conditions, p, i) ensures i == 0 {
        }
      } else if c.Panic? {
        forall i: nat ensures !FirstMatch(conditions, p, i) {
        }
      } else {
        ProcessFirstMatch(conditions[1..], p);
        FirstMatchShift(conditions, p);
        if Process(conditions, p).Ok? {
          var k: nat :| FirstMatch(conditions[1..], p, k);
          assert FirstMatch(conditions, p, k + 1);
        }
        forall i: nat | FirstMatch(conditions, p, i) ensures Process(conditions, p) == Ok(conditions[i].destination) {
          assert i > 0 && FirstMatch(conditions[1..], p, i - 1);
        }
      }
    }
  }

  lemma FirstMatchShift(conditions: seq<Condition>, p: MachinePart)
    requires |conditions| > 0 && Check(conditions[0], p) == Ok(None)
    ensures forall i: nat :: FirstMatch(conditions, p, i + 1) <==> FirstMatch(conditions[1..], p, i)
    ensures !FirstMatch(conditions, p, 0)
  {
    forall i: nat ensures FirstMatch(conditions, p, i + 1) <==> FirstMatch(conditions[1..], p, i) {
      if FirstMatch(conditions[1..], p, i) {
        forall j | 0 <= j < i + 1 ensures Check(conditions[j], p) == Ok(None) {
          if j > 0 { assert conditions[j] == conditions[1..][j - 1]; }
        }
      }
      if FirstMatch(conditions, p, i + 1) {
        forall j | 0 <= j < i ensures Check(conditions[1..][j], p) == Ok(None) {
          assert conditions[1..][j] == conditions[j + 1];
        }
      }
    }
  }

  /** The workflows by name. */
  type Workflows = map<string, seq<Condition>>

  /** A workflow line "name{rules}": its name and its rules. */
  function ParseLine(line: string): Result<(string, seq<Condition>)> {
    match IndexOf(line, '{')
    case None => Panic("no brace")
    case Some(brace) =>
      if |line| < 1 || brace + 1 > |line| - 1 then Panic("slice index starts after its end")
      else match ParseWorkflow(line[brace + 1..|line| - 1])
        case Panic(why) => Panic(why)
        case Ok(conditions) => Ok((line[..brace], conditions))
  }

  /** The map after inserting the entries in order; a later entry replaces an earlier one. */
  function InsertAll(entries: seq<(string, seq<Condition>)>): (m: Workflows) {
    if |entries| == 0 then map[]
    else InsertAll(entries[..|entries| - 1])[entries[|entries| - 1].0 := entries[|entries| - 1].1]
  }

  /** One more entry is one more insertion. */
  lemma InsertAllSnoc(entries: seq<(string, seq<Condition>)>, e: (string, seq<Condition>))
    ensures InsertAll(entries + [e]) == InsertAll(entries)[e.0 := e.1]
  {
    assert (entries + [e])[..|entries|] == entries;
  }

  /** The names of the map are the names of the entries. */
  lemma {:induction false} InsertAllKeys(entries: seq<(string, seq<Condition>)>, name: string)
    ensures name in InsertAll(entries) <==> exists i :: 0 <= i < |entries| && entries[i].0 == name
  {
    if |entries| > 0 {
      var n := |entries| - 1;
      var prefix := entries[..n];
      InsertAllKeys(prefix, name);
      assert forall i :: 0 <= i < n ==> prefix[i] == entries[i];
    }
  }

  /** Each name of the map maps to the workflow of its last entry. */
  lemma {:induction false} InsertAllLast(entries: seq<(string, seq<Condition>)>, name: string, i: nat)
    requires LastEntry(entries, name, i)
    ensures name in InsertAll(entries) && InsertAll(entries)[name] == entries[i].1
  {
    var n := |entries| - 1;
    if i < n {
      var prefix := entries[..n];
      assert LastEntry(prefix, name, i);
      InsertAllLast(prefix, name, i);
    }
  }

  /** Entry `i` is the last entry for `name`. */
  predicate LastEntry(entries: seq<(string, seq<Condition>)>, name: string, i: int) {
    0 <= i < |entries| && entries[i].0 == name && forall j :: i < j < |entries| ==> entries[j].0 != name
  }

  /** `ElfSortingSystem::from_str`: the workflows of the lines before the first empty one. */
  function ParseSystem(stateLines: string): Result<Workflows> {
    match MapResults(ParseLine, Lines(stateLines))
    case Panic(why) => Panic(why)
    case Ok(entries) => Ok(InsertAll(entries))
  }

  /** `ElfSortingSystem::from_str`: inserts the workflow of each line into the map, in order. */
  method FromStr(stateLines: string) returns (r: Result<Workflows>)
    ensures r == ParseSystem(stateLines)
    ensures r.Ok? <==> forall i :: 0 <= i < |Lines(stateLines)| ==> ParseLine(Lines(stateLines)[i]).Ok?
  {
    var lines := Lines(stateLines);
    var workflows: Workflows := map[];
    ghost var entries: seq<(string, seq<Condition>)> := [];
    for i := 0 to |lines|
      invariant MapResults(ParseLine, lines[..i]) == Ok(entries)
      invariant workflows == InsertAll(entries)
    {
      var entry := ParseLine(lines[i]);
      if entry.Panic? {
        MapResultsPanic(ParseLine, lines, i);
        MapResultsOk(ParseLine, lines);
        return Panic(entry.reason);
      }
      MapResultsStep(ParseLine, lines, i, entries, entry.value);
      InsertAllSnoc(entries, entry.value);
      workflows := workflows[entry.value.0 := entry.value.1];
      entries := entries + [entry.value];
    }
    assert lines[..|lines|] == lines;
    MapResultsOk(ParseLine, lines);
    return Ok(workflows);
  }

  // ---------------------------------------------------------------------
  // Part 1: one part through the workflows

  /**
   * The verdict for a part standing at workflow `name`, having passed the
   * workflows in `visited`: true at "A", false at "R"; panics at a missing
   * workflow or a panicking rule.  Coming back to a workflow already passed
   * is reported as a panic: the source's loop would then never end.
   */
  function Verdict(system: Workflows, p: MachinePart, name: string, visited: set<string>): Result<bool>
    requires visited <= system.Keys
    decreases |system.Keys - visited|
  {
    if name == "R" then Ok(false)
    else if name == "A" then Ok(true)
    else if name !in system then Panic("no such workflow")
    else if name in visited then Panic("the workflows loop forever")
    else
      assert |system.Keys - (visited + {name})| < |system.Keys - visited| by {
        assert system.Keys - (visited + {name}) < system.Keys - visited;
      }
      match Process(system[name], p)
      case Panic(why) => Panic(why)
      case Ok(next) => Verdict(system, p, next, visited + {name})
  }

  /**
   * `check_part`: follows the workflows from "in" until "A" or "R".  The
   * `visited` set is the model's addition: it stops the loop where the
   * source would go round forever.
   */
  method CheckPart(system: Workflows, p: MachinePart) returns (r: Result<bool>)
    ensures r == Verdict(system, p, "in", {})
  {
    var name := "in";
    var visited: set<string> := {};
    while name != "R" && name != "A"
      invariant visited <= system.Keys
      invariant Verdict(system, p, name, visited) == Verdict(system, p, "in", {})
      decreases |system.Keys - visited|
    {
      if name !in system {
        return Panic("no such workflow");
      }
      if name in visited {
        return Panic("the workflows loop forever");
      }
      var next := Process(system[name], p);
      if next.Panic? {
        return Panic(next.reason);
      }
      assert system.Keys - (visited + {name}) < system.Keys - visited;
      visited := visited + {name};
      name := next.value;
    }
    return Ok(name == "A");
  }

  /** Each workflow of `route` sends the part to the next one. */
  predicate IsRoute(system: Workflows, p: MachinePart, route: seq<string>) {
    forall k :: 0 <= k < |route| - 1 ==>
      route[k] != "A" && route[k] != "R" && route[k] in system && Process(system[route[k]], p) == Ok(route[k + 1])
  }

  /**
   * A verdict is a route of workflows from the starting one that ends at
   * "A" (accepted) or at "R" (rejected).
   */
  lemma {:induction false} VerdictRoute(system: Workflows, p: MachinePart, name: string, visited: set<string>)
    returns (route: seq<string>)
    requires visited <= system.Keys
    requires Verdict(system, p, name, visited).Ok?
    ensures |route| >= 1 && route[0] == name && IsRoute(system, p, route)
    ensures route[|route| - 1] == "A" || route[|route| - 1] == "R"
    ensures Verdict(system, p, name, visited).value <==> route[|route| - 1] == "A"
    decreases |system.Keys - visited|
  {
    if name == "R" || name == "A" {
      route := [name];
    } else {
      assert system.Keys - (visited + {name}) < system.Keys - visited;
      var next := Process(system[name], p).value;
      var rest := VerdictRoute(system, p, next, visited + {name});
      route := [name] + rest;
      forall k | 1 <= k < |route| - 1
        ensures route[k] != "A" && route[k] != "R" && route[k] in system && Process(system[route[k]], p) == Ok(route[k + 1])
      {
        assert route[k] == rest[k - 1] && route[k + 1] == rest[k];
      }
    }
  }

  /** `MachinePart::from_str`: "{x=..,m=..,a=..,s=..}", the first four fields read past their two-character prefix. */
  function ParsePart(description: string): Result<MachinePart> {
    if |description| < 2 then Panic("slice index out of range")
    else
      var fields := Split(description[1..|description| - 1], ',');
      if |fields| < 4 then Panic("missing rating")
      else match ParseRating(fields[0])
        case Panic(why) => Panic(why)
        case Ok(x) =>
          match ParseRating(fields[1])
          case Panic(why) => Panic(why)
          case Ok(m) =>
            match ParseRating(fields[2])
            case Panic(why) => Panic(why)
            case Ok(a) =>
              match ParseRating(fields[3])
              case Panic(why) => Panic(why)
              case Ok(s) => Ok(MachinePart([x, m, a, s]))
  }

  /** "k=v": the `usize` after the first two characters. */
  function ParseRating(field: string): Result<nat> {
    if |field| < 2 then Panic("slice index out of range")
    else match ParseUsize(field[2..])
      case None => Panic("rating is not a usize")
      case Some(v) => Ok(v)
  }

  /** What one part line adds in part 1: its score when the part is accepted. */
  function PartScore(system: Workflows, item: string): Result<nat> {
    match ParsePart(item)
    case Panic(why) => Panic(why)
    case Ok(p) =>
      match Verdict(system, p, "in", {})
      case Panic(why) => Panic(why)
      case Ok(accepted) => Ok(if accepted then Score(p) else 0)
  }

  function Scorer(system: Workflows): string -> Result<nat> {
    item => PartScore(system, item)
  }

  /** The answer of part 1: workflows before the blank line, parts after it. */
  function Part1Of(contents: string): Result<nat> {
    var blocks := SplitStr(contents, "\n\n");
    if |blocks| < 2 then Panic("no blank line")
    else match ParseSystem(blocks[0])
      case Panic(why) => Panic(why)
      case Ok(system) => SumResults(Scorer(system), Lines(blocks[1]))
  }

  /**
   * `part1`: parses the workflows, then adds the scores of the accepted
   * parts, stopping at the first panic.
   */
  method Part1(contents: string) returns (r: Result<nat>)
    ensures r == Part1Of(contents)
  {
    var blocks := SplitStr(contents, "\n\n");
    if |blocks| < 2 {
      return Panic("no blank line");
    }
    var parsed := FromStr(blocks[0]);
    if parsed.Panic? {
      return Panic(parsed.reason);
    }
    r := SumEach(Scorer(parsed.value), Lines(blocks[1]));
  }

  // ---------------------------------------------------------------------
  // Part 2: counting accepted combinations

  /**
   * `traverse_count`: the number of accepted combinations in `r` starting at
   * workflow `name`.  `depth` bounds the depth of the recursion, standing for
   * the stack; running out of it is a panic.
   */
  function Count(system: Workflows, name: string, r: PartRange, depth: nat): Result<nat>
    decreases depth, 0, 0
  {
    if IsEmpty(r) || name == "R" then Ok(0)
    else if name == "A" then Ok(Size(r))
    else if depth == 0 then Panic("stack overflow")
    else if name !in system then Panic("no such workflow")
    else CountOf(CountRules(system, system[name], r, depth - 1))
  }

  /** The count the loop ends with; the range left over is dropped. */
  function CountOf(loop: Result<(nat, PartRange)>): Result<nat> {
    match loop
    case Panic(why) => Panic(why)
    case Ok(acc) => Ok(acc.0)
  }

  /**
   * The loop over a workflow's rules, after the rules in `conditions`: the
   * count so far, and the part of the range no rule has taken yet.  Each
   * rule counts its half of what is left, and the rest goes on.
   */
  function CountRules(system: Workflows, conditions: seq<Condition>, r: PartRange, depth: nat): Result<(nat, PartRange)>
    decreases depth, 2, |conditions|
  {
    if |conditions| == 0 then Ok((0, r))
    else match CountRules(system, conditions[..|conditions| - 1], r, depth)
      case Panic(why) => Panic(why)
      case Ok(acc) =>
        match RuleStep(system, conditions[|conditions| - 1], acc.1, depth)
        case Panic(why) => Panic(why)
        case Ok(step) => Ok((acc.0 + step.0, step.1))
  }

  /**
   * One turn of the loop: the count of the half of `current` the rule
   * takes, and the half that goes on to the next rule.
   */
  function RuleStep(system: Workflows, c: Condition, current: PartRange, depth: nat): Result<(nat, PartRange)>
    decreases depth, 1, 0
  {
    match SplitBy(current, c)
    case Panic(why) => Panic(why)
    case Ok(halves) =>
      match Count(system, c.destination, halves.0, depth)
      case Panic(why) => Panic(why)
      case Ok(n) => Ok((n, halves.1))
  }

  /** An empty range or "R" counts 0, "A" counts the size of the range. */
  lemma CountEnds(system: Workflows, r: PartRange, depth: nat)
    ensures Count(system, "R", r, depth) == Ok(0)
    ensures Count(system, "A", r, depth) == Ok(Size(r))
    ensures forall name :: IsEmpty(r) ==> Count(system, name, r, depth) == Ok(0)
  {
  }

  /**
   * The widening of `split_by` reaches the count: after "x>2000:R" on a range
   * whose x stops at 1000, the rest handed to "A" holds x up to 2000, so the
   * count exceeds the size of the range it started from.
   */
  lemma CountWidened()
    ensures var r := With(NewRange(), 0, Interval(1, 1000));
      var system := map["in" := [Condition('x', Greater, 2000, "R"), Condition('x', Greater, 0, "A")]];
      Size(r) == 64_000_000_000_000 && Count(system, "in", r, 1) == Ok(128_000_000_000_000)
  {
    var r := With(NewRange(), 0, Interval(1, 1000));
    var system := map["in" := [Condition('x', Greater, 2000, "R"), Condition('x', Greater, 0, "A")]];
    var rules := system["in"];
    assert rules[..1] == [rules[0]] && rules[..2] == rules && rules[..0] == [];
    var rest := With(r, 0, Interval(1, 2000));
    assert SplitBy(r, rules[0]) == Ok((With(r, 0, Interval(2001, 1000)), rest));
    assert CountRules(system, rules[..1], r, 0) == Ok((0, rest));
    assert SplitBy(rest, rules[1]) == Ok((rest, With(r, 0, Interval(1, 0))));
    assert Size(rest) == 128_000_000_000_000;
  }

  /** A count that succeeds within some depth gives the same answer with any greater depth. */
  lemma {:induction false} CountDepth(system: Workflows, name: string, r: PartRange, depth: nat, more: nat)
    requires Count(system, name, r, depth).Ok? && depth <= more
    ensures Count(system, name, r, more) == Count(system, name, r, depth)
    decreases depth, 0, 0
  {
    if !(IsEmpty(r) || name == "R" || name == "A") {
      CountRulesDepth(system, system[name], r, depth - 1, more - 1);
    }
  }

  lemma {:induction false} CountRulesDepth(system: Workflows, conditions: seq<Condition>, r: PartRange, depth: nat, more: nat)
    requires CountRules(system, conditions, r, depth).Ok? && depth <= more
    ensures CountRules(system, conditions, r, more) == CountRules(system, conditions, r, depth)
    decreases depth, 2, |conditions|
  {
    if |conditions| > 0 {
      var last := conditions[|conditions| - 1];
      var init := conditions[..|conditions| - 1];
      CountRulesDepth(system, init, r, depth, more);
      var acc := CountRules(system, init, r, depth).value;
      var halves := SplitBy(acc.1, last).value;
      CountDepth(system, last.destination, halves.0, depth, more);
    }
  }

  /** `traverse_count`: the ends of the recursion, then the loop over the workflow's rules. */
  method TraverseCount(system: Workflows, name: string, r: PartRange, depth: nat) returns (res: Result<nat>)
    ensures res == Count(system, name, r, depth)
    decreases depth, 0
  {
    if IsEmpty(r) || name == "R" {
      return Ok(0);
    }
    if name == "A" {
      return Ok(Size(r));
    }
    if depth == 0 {
      return Panic("stack overflow");
    }
    if name !in system {
      return Panic("no such workflow");
    }
    res := CountEach(system, system[name], r, depth - 1);
  }

  /** The body of `traverse_count`'s loop: splits the range and counts the rule's half recursively. */
  method CountRule(system: Workflows, c: Condition, current: PartRange, depth: nat) returns (res: Result<(nat, PartRange)>)
    ensures res == RuleStep(system, c, current, depth)
    decreases depth, 1
  {
    var halves := SplitBy(current, c);
    if halves.Panic? {
      return Panic(halves.reason);
    }
    var n := TraverseCount(system, c.destination, halves.value.0, depth);
    if n.Panic? {
      return Panic(n.reason);
    }
    return Ok((n.value, halves.value.1));
  }

  /**
   * The loop of `traverse_count`: each rule's half is counted by a recursive
   * call while the rest of the range goes on to the next rule.
   */
  method CountEach(system: Workflows, conditions: seq<Condition>, r: PartRange, depth: nat) returns (res: Result<nat>)
    ensures res == CountOf(CountRules(system, conditions, r, depth))
    decreases depth, 3
  {
    var current := r;
    var count: nat := 0;
    for i := 0 to |conditions|
      invariant CountRules(system, conditions[..i], r, depth) == Ok((count, current))
    {
      var step := CountNext(system, conditions, i, r, depth, count, current);
      if step.Panic? {
        return Panic(step.reason);
      }
      count, current := step.value.0, step.value.1;
    }
    assert conditions[..|conditions|] == conditions;
    return Ok(count);
  }

  /** One turn of the loop of `traverse_count`: the count and the range after rule `i`. */
  method CountNext(system: Workflows, conditions: seq<Condition>, i: nat, r: PartRange, depth: nat,
                   count: nat, current: PartRange) returns (res: Result<(nat, PartRange)>)
    requires i < |conditions| && CountRules(system, conditions[..i], r, depth) == Ok((count, current))
    ensures res.Panic? ==> CountRules(system, conditions, r, depth) == Panic(res.reason)
    ensures res.Ok? ==> CountRules(system, conditions[..i + 1], r, depth) == res
    decreases depth, 2
  {
    var step := CountRule(system, conditions[i], current, depth);
    if step.Panic? {
      CountRulesStop(system, conditions, i, r, depth, (count, current));
      return Panic(step.reason);
    }
    CountRulesStep(system, conditions, i, r, depth, (count, current), step.value);
    return Ok((count + step.value.0, step.value.1));
  }

  /** One turn of the loop: the rule's half is counted and the rest carried on. */
  lemma CountRulesStep(system: Workflows, conditions: seq<Condition>, k: nat, r: PartRange, depth: nat,
                       acc: (nat, PartRange), step: (nat, PartRange))
    requires k < |conditions| && CountRules(system, conditions[..k], r, depth) == Ok(acc)
    requires RuleStep(system, conditions[k], acc.1, depth) == Ok(step)
    ensures CountRules(system, conditions[..k + 1], r, depth) == Ok((acc.0 + step.0, step.1))
  {
    assert conditions[..k + 1][..k] == conditions[..k] && conditions[..k + 1][k] == conditions[k];
  }

  /** A turn of the loop that panics makes the whole loop panic the same way. */
  lemma CountRulesStop(system: Workflows, conditions: seq<Condition>, k: nat, r: PartRange, depth: nat, acc: (nat, PartRange))
    requires k < |conditions| && CountRules(system, conditions[..k], r, depth) == Ok(acc)
    requires RuleStep(system, conditions[k], acc.1, depth).Panic?
    ensures CountRules(system, conditions, r, depth) == Panic(RuleStep(system, conditions[k], acc.1, depth).reason)
  {
    assert conditions[..k + 1][..k] == conditions[..k] && conditions[..k + 1][k] == conditions[k];
    CountRulesPanic(system, conditions, k + 1, r, depth);
  }

  /** Once the rules up to some point panic, the whole loop panics the same way. */
  lemma {:induction false} CountRulesPanic(system: Workflows, conditions: seq<Condition>, k: nat, r: PartRange, depth: nat)
    requires k <= |conditions| && CountRules(system, conditions[..k], r, depth).Panic?
    ensures CountRules(system, conditions, r, depth) == CountRules(system, conditions[..k], r, depth)
    decreases |conditions|
  {
    if k < |conditions| {
      var init := conditions[..|conditions| - 1];
      assert init[..k] == conditions[..k];
      CountRulesPanic(system, init, k, r, depth);
    } else {
      assert conditions[..k] == conditions;
    }
  }

  /** The answer of part 2: the count from "in" over the full range. */
  function Part2Of(contents: string, depth: nat): Result<nat> {
    match ParseSystem(SplitStr(contents, "\n\n")[0])
    case Panic(why) => Panic(why)
    case Ok(system) => Count(system, "in", NewRange(), depth)
  }

  /** `part2`: the count of accepted combinations, with `depth` bounding the recursion. */
  method Part2(contents: string, depth: nat) returns (r: Result<nat>)
    ensures r == Part2Of(contents, depth)
  {
    var parsed := FromStr(SplitStr(contents, "\n\n")[0]);
    if parsed.Panic? {
      return Panic(parsed.reason);
    }
    r := TraverseCount(parsed.value, "in", NewRange(), depth);
  }
}
