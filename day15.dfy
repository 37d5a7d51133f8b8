/**
 * Day 15: the HASH algorithm and the HASHMAP of 256 lens boxes.
 * Part 1 sums the hashes of the comma-separated steps; part 2 runs each
 * step against the boxes ("label=f" puts a lens, "label-" takes one out)
 * and sums the focusing power of the lenses left in them.
 */
module Day15 {
  import opened Text

  // ---------------------------------------------------------------------
  // The hash

  const NumBoxes: nat := 256

  /**
   * The hash of `s` by its definition from the end: the hash of the prefix,
   * plus the code of the last character, times 17, kept to the low eight
   * bits (`& 255` on a non-negative number is `% 256`).
   */
  function HashOf(s: string): (h: nat)
    ensures h < NumBoxes
  {
    if |s| == 0 then 0 else ((HashOf(s[..|s| - 1]) + s[|s| - 1] as int) * 17) % 256
  }

  /** Hashing is incremental: one more character folds into the hash so far. */
  lemma HashAppend(s: string, c: char)
    ensures HashOf(s + [c]) == ((HashOf(s) + c as int) * 17) % 256
  {
    assert (s + [c])[..|s|] == s;
  }

  /** `hash`: the loop that folds each character into `res`. */
  method Hash(input: string) returns (h: nat)
    ensures h < NumBoxes
    ensures h == HashOf(input)
  {
    var res := 0;
    for i := 0 to |input|
      invariant res == HashOf(input[..i])
    {
      assert input[..i + 1] == input[..i] + [input[i]];
      HashAppend(input[..i], input[i]);
      res := res + input[i] as int;
      res := res * 17;
      res := res % 256;
    }
    assert input[..|input|] == input;
    return res;
  }

  lemma HashEmpty()
    ensures HashOf("") == 0
  {
  }

  // ---------------------------------------------------------------------
  // Part 1

  /** The steps of the initialisation sequence: the trimmed input split on ','. */
  function Steps(contents: string): seq<string> {
    Split(TrimEnd(contents), ',')
  }

  function SumHashes(steps: seq<string>): (total: nat)
    ensures total < NumBoxes * (|steps| + 1)
  {
    if |steps| == 0 then 0 else SumHashes(steps[..|steps| - 1]) + HashOf(steps[|steps| - 1])
  }

  /** `part1`: the sum of the hashes of all the steps. */
  method Part1(contents: string) returns (total: nat)
    ensures total == SumHashes(Steps(contents))
    ensures total < NumBoxes * (|Steps(contents)| + 1)
  {
    var steps := Steps(contents);
    total := 0;
    for i := 0 to |steps|
      invariant total == SumHashes(steps[..i])
    {
      assert steps[..i + 1][..i] == steps[..i];
      var h := Hash(steps[i]);
      total := total + h;
    }
    assert steps[..|steps|] == steps;
  }

  // ---------------------------------------------------------------------
  // Part 2: the operations on one box

  /** A lens in a box: its label and its focal length. */
  datatype Lens = Lens(name: string, focal: nat)

  /** No two lenses of a box share a label. */
  predicate UniqueLabels(lenses: seq<Lens>) {
    forall i, j :: 0 <= i < j < |lenses| ==> lenses[i].name != lenses[j].name
  }

  /** `iter().position(..)`: the index of the lens with `label`. */
  function Position(lenses: seq<Lens>, name: string): (r: Option<nat>)
    ensures r.None? <==> forall i :: 0 <= i < |lenses| ==> lenses[i].name != name
    ensures r.Some? ==> r.value < |lenses| && lenses[r.value].name == name
    ensures r.Some? ==> forall i :: 0 <= i < r.value ==> lenses[i].name != name
  {
    if |lenses| == 0 then None
    else if lenses[0].name == name then Some(0)
    else match Position(lenses[1..], name)
      case None => None
      case Some(i) => Some(i + 1)
  }

  /** "label=f": replace the lens with that label in place, or add the lens at the back. */
  function Put(lenses: seq<Lens>, name: string, focal: nat): seq<Lens> {
    match Position(lenses, name)
    case Some(i) => lenses[i := Lens(name, focal)]
    case None => lenses + [Lens(name, focal)]
  }

  /** "label-": take out the lens with that label, if there is one. */
  function Take(lenses: seq<Lens>, name: string): seq<Lens> {
    match Position(lenses, name)
    case Some(i) => lenses[..i] + lenses[i + 1..]
    case None => lenses
  }

  /** A label already in the box keeps its slot and gets the new focal length; nothing else moves. */
  lemma PutReplaces(lenses: seq<Lens>, name: string, focal: nat, i: nat)
    requires UniqueLabels(lenses) && i < |lenses| && lenses[i].name == name
    ensures |Put(lenses, name, focal)| == |lenses|
    ensures Put(lenses, name, focal)[i] == Lens(name, focal)
    ensures forall j :: 0 <= j < |lenses| && j != i ==> Put(lenses, name, focal)[j] == lenses[j]
  {
  }

  /** A new label goes at the back. */
  lemma PutAppends(lenses: seq<Lens>, name: string, focal: nat)
    requires forall i :: 0 <= i < |lenses| ==> lenses[i].name != name
    ensures Put(lenses, name, focal) == lenses + [Lens(name, focal)]
  {
  }

  /** Taking a label out keeps the other lenses in their order. */
  lemma TakeRemoves(lenses: seq<Lens>, name: string, i: nat)
    requires UniqueLabels(lenses) && i < |lenses| && lenses[i].name == name
    ensures Take(lenses, name) == lenses[..i] + lenses[i + 1..]
    ensures forall j :: 0 <= j < |Take(lenses, name)| ==> Take(lenses, name)[j].name != name
  {
  }

  /** Taking out a label that is not there leaves the box as it was. */
  lemma TakeAbsent(lenses: seq<Lens>, name: string)
    requires forall i :: 0 <= i < |lenses| ==> lenses[i].name != name
    ensures Take(lenses, name) == lenses
  {
  }

  /** Both operations keep the labels of a box unique. */
  lemma PutUnique(lenses: seq<Lens>, name: string, focal: nat)
    requires UniqueLabels(lenses)
    ensures UniqueLabels(Put(lenses, name, focal))
  {
  }

  lemma TakeUnique(lenses: seq<Lens>, name: string)
    requires UniqueLabels(lenses)
    ensures UniqueLabels(Take(lenses, name))
  {
    match Position(lenses, name)
    case None =>
    case Some(i) =>
      var r := lenses[..i] + lenses[i + 1..];
      forall a, b | 0 <= a < b < |r| ensures r[a].name != r[b].name {
        var a' := if a < i then a else a + 1;
        var b' := if b < i then b else b + 1;
        assert r[a] == lenses[a'] && r[b] == lenses[b'];
      }
  }

  // ---------------------------------------------------------------------
  // Part 2: the steps

  /** A parsed step. */
  datatype Op = PutLens(name: string, focal: nat) | TakeLens(name: string)

  /**
   * A step in text: "label=f" when it contains '=', the label ending at the
   * first '='; otherwise "label-", ending at the first '-'.  Panics when
   * neither character is there, or when `f` is not a `u8`.
   */
  function ParseStep(step: string): (r: Result<Op>)
    ensures r.Ok? && r.value.PutLens? ==> '=' in step && r.value.focal <= U8_MAX
    ensures r.Ok? && r.value.TakeLens? ==> '=' !in step && '-' in step
    ensures r.Ok? ==> r.value.name + [if r.value.PutLens? then '=' else '-'] <= step
  {
    if '=' in step then
      var end := IndexOf(step, '=').value;
      match ParseNat(step[end + 1..], U8_MAX)
      case None => Panic("focal length is not a u8")
      case Some(f) =>
        PrefixThrough(step, end);
        Ok(PutLens(step[..end], f))
    else match IndexOf(step, '-')
      case None => Panic("no operation")
      case Some(end) =>
        PrefixThrough(step, end);
        Ok(TakeLens(step[..end]))
  }

  /** The text up to and including index `end` starts the step. */
  lemma PrefixThrough(step: string, end: nat)
    requires end < |step|
    ensures step[..end] + [step[end]] <= step
  {
    assert step[..end] + [step[end]] == step[..end + 1];
  }

  /** The boxes after one step: only box `HashOf(label)` changes. */
  function ApplyOp(boxes: seq<seq<Lens>>, op: Op): (r: seq<seq<Lens>>)
    requires |boxes| == NumBoxes
    ensures |r| == NumBoxes
    ensures forall b :: 0 <= b < NumBoxes && b != HashOf(op.name) ==> r[b] == boxes[b]
  {
    var key := HashOf(op.name);
    match op
    case PutLens(name, focal) => boxes[key := Put(boxes[key], name, focal)]
    case TakeLens(name) => boxes[key := Take(boxes[key], name)]
  }

  /** Every lens sits in the box its label hashes to, and labels are unique in each box. */
  ghost predicate WellFiled(boxes: seq<seq<Lens>>) {
    |boxes| == NumBoxes
    && (forall b :: 0 <= b < NumBoxes ==> UniqueLabels(boxes[b]))
    && (forall b, i :: 0 <= b < NumBoxes && 0 <= i < |boxes[b]| ==> HashOf(boxes[b][i].name) == b)
  }

  /** Every step keeps the boxes well filed. */
  lemma ApplyOpWellFiled(boxes: seq<seq<Lens>>, op: Op)
    requires WellFiled(boxes)
    ensures WellFiled(ApplyOp(boxes, op))
  {
    var key := HashOf(op.name);
    match op
    case PutLens(name, focal) => PutUnique(boxes[key], name, focal);
    case TakeLens(name) =>
      TakeUnique(boxes[key], name);
      var old_box := boxes[key];
      match Position(old_box, name)
      case None =>
      case Some(i) =>
        var r := old_box[..i] + old_box[i + 1..];
        forall j | 0 <= j < |r| ensures HashOf(r[j].name) == key {
          assert r[j] == old_box[if j < i then j else j + 1];
        }
  }

  /** The boxes after the steps, one after another. */
  function RunOps(boxes: seq<seq<Lens>>, ops: seq<Op>): (r: seq<seq<Lens>>)
    requires |boxes| == NumBoxes
    ensures |r| == NumBoxes
  {
    if |ops| == 0 then boxes else ApplyOp(RunOps(boxes, ops[..|ops| - 1]), ops[|ops| - 1])
  }

  /** 256 empty boxes. */
  function EmptyBoxes(): (boxes: seq<seq<Lens>>)
    ensures |boxes| == NumBoxes && forall b :: 0 <= b < NumBoxes ==> boxes[b] == []
  {
    seq(NumBoxes, b => [])
  }

  /** Running any steps from well-filed boxes leaves them well filed. */
  lemma {:induction false} RunOpsWellFiled(boxes: seq<seq<Lens>>, ops: seq<Op>)
    requires WellFiled(boxes)
    ensures WellFiled(RunOps(boxes, ops))
  {
    if |ops| > 0 {
      RunOpsWellFiled(boxes, ops[..|ops| - 1]);
      ApplyOpWellFiled(RunOps(boxes, ops[..|ops| - 1]), ops[|ops| - 1]);
    }
  }

  /** The empty boxes are well filed. */
  lemma EmptyWellFiled()
    ensures WellFiled(EmptyBoxes())
  {
  }

  /** A step only ever changes the box its label hashes to, so after the steps every other box is as before. */
  lemma {:induction false} RunOpsUntouched(boxes: seq<seq<Lens>>, ops: seq<Op>, b: nat)
    requires |boxes| == NumBoxes && b < NumBoxes
    requires forall i :: 0 <= i < |ops| ==> HashOf(ops[i].name) != b
    ensures RunOps(boxes, ops)[b] == boxes[b]
  {
    if |ops| > 0 {
      RunOpsUntouched(boxes, ops[..|ops| - 1], b);
    }
  }

  // ---------------------------------------------------------------------
  // Part 2: focusing power

  /** The power of the lenses from slot 0 up to `lenses`' end, in box number `b`. */
  function BoxPower(lenses: seq<Lens>, b: nat): nat {
    if |lenses| == 0 then 0
    else BoxPower(lenses[..|lenses| - 1], b) + (b + 1) * |lenses| * lenses[|lenses| - 1].focal
  }

  /** The total focusing power of the first `n` boxes. */
  function TablePower(boxes: seq<seq<Lens>>, n: nat): nat
    requires n <= |boxes|
  {
    if n == 0 then 0 else TablePower(boxes, n - 1) + BoxPower(boxes[n - 1], n - 1)
  }

  /** A lens at slot `i` of box `b` adds (b + 1) (i + 1) f: adding a lens at the back adds exactly that. */
  lemma BoxPowerAppend(lenses: seq<Lens>, b: nat, lens: Lens)
    ensures BoxPower(lenses + [lens], b) == BoxPower(lenses, b) + (b + 1) * (|lenses| + 1) * lens.focal
  {
    assert (lenses + [lens])[..|lenses|] == lenses;
  }

  /** Only lenses with a focal length add power: a box of zero-focal lenses adds nothing. */
  lemma {:induction false} BoxPowerZero(lenses: seq<Lens>, b: nat)
    requires forall i :: 0 <= i < |lenses| ==> lenses[i].focal == 0
    ensures BoxPower(lenses, b) == 0
  {
    if |lenses| > 0 {
      BoxPowerZero(lenses[..|lenses| - 1], b);
    }
  }

  /** The table of boxes that part 2 fills: 256 boxes, updated in place. */
  class LensTable {
    var boxes: seq<seq<Lens>>

    ghost predicate Valid()
      reads this
    {
      WellFiled(boxes)
    }

    /** `Vec::with_capacity(256)` filled with empty boxes. */
    constructor ()
      ensures Valid() && boxes == EmptyBoxes()
    {
      boxes := EmptyBoxes();
    }

    /** One step on the table: the lens goes into, or leaves, box `hash(label)`. */
    method Apply(op: Op)
      requires Valid()
      modifies this
      ensures Valid()
      ensures boxes == ApplyOp(old(boxes), op)
    {
      ApplyOpWellFiled(boxes, op);
      var key := Hash(op.name);
      var lenses := boxes[key];
      var found := Position(lenses, op.name);
      match op {
        case PutLens(name, focal) =>
          if found.Some? {
            lenses := lenses[found.value := Lens(name, focal)];
          } else {
            lenses := lenses + [Lens(name, focal)];
          }
        case TakeLens(name) =>
          if found.Some? {
            lenses := lenses[..found.value] + lenses[found.value + 1..];
          }
      }
      boxes := boxes[key := lenses];
    }

    /** The focusing power of the lenses in the table. */
    method FocusingPower() returns (res: nat)
      requires Valid()
      ensures res == TablePower(boxes, NumBoxes)
    {
      res := 0;
      for b := 0 to NumBoxes
        invariant res == TablePower(boxes, b)
      {
        var lenses := boxes[b];
        var box_power := 0;
        for slot := 0 to |lenses|
          invariant box_power == BoxPower(lenses[..slot], b)
        {
          assert lenses[..slot + 1][..slot] == lenses[..slot];
          box_power := box_power + (b + 1) * (slot + 1) * lenses[slot].focal;
        }
        assert lenses[..|lenses|] == lenses;
        res := res + box_power;
      }
    }
  }

  /** The answer part 2 gives: the power after every step, or the panic of the first bad step. */
  function Part2Of(contents: string): Result<nat> {
    match MapResults(ParseStep, Steps(contents))
    case Panic(why) => Panic(why)
    case Ok(ops) => Ok(TablePower(RunOps(EmptyBoxes(), ops), NumBoxes))
  }

  /** `part2`: runs every step on a fresh table, then sums the focusing power. */
  method Part2(contents: string) returns (r: Result<nat>)
    ensures r.Ok? <==> forall i :: 0 <= i < |Steps(contents)| ==> ParseStep(Steps(contents)[i]).Ok?
    ensures r == Part2Of(contents)
  {
    var steps := Steps(contents);
    var table := new LensTable();
    ghost var ops: seq<Op> := [];
    for i := 0 to |steps|
      invariant table.Valid()
      invariant MapResults(ParseStep, steps[..i]) == Ok(ops)
      invariant table.boxes == RunOps(EmptyBoxes(), ops)
    {
      var op := ParseStep(steps[i]);
      if op.Panic? {
        MapResultsPanic(ParseStep, steps, i);
        MapResultsOk(ParseStep, steps);
        return Panic(op.reason);
      }
      MapResultsStep(ParseStep, steps, i, ops, op.value);
      table.Apply(op.value);
      ops := ops + [op.value];
    }
    assert steps[..|steps|] == steps;
    MapResultsOk(ParseStep, steps);
    var power := table.FocusingPower();
    return Ok(power);
  }
}
