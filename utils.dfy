/**
 * The grid readers of src/utils.rs.  An `Array2D<T>` is modelled as a
 * rectangular `seq<seq<T>>` indexed `[row][column]`, i.e. `[y][x]`.
 */
module Grid {
  import opened Text

  /** `g` has `h` rows of `w` cells each. */
  predicate IsRect<T>(g: seq<seq<T>>, h: nat, w: nat) {
    |g| == h && forall y :: 0 <= y < h ==> |g[y]| == w
  }

  lemma MulLeq(a: nat, b: nat, w: nat)
    requires a <= b
    ensures a * w <= b * w
  {
    assert b * w == a * w + (b - a) * w;
  }

  lemma MulSucc(h: nat, w: nat)
    requires h > 0
    ensures h * w == w + (h - 1) * w
  {
  }

  /** The first `h` rows of `w` items each. */
  function Rows<T>(items: seq<T>, h: nat, w: nat): (g: seq<seq<T>>)
    requires |items| >= h * w
    ensures IsRect(g, h, w)
    ensures Concat(g) == items[..h * w]
  {
    if h == 0 then []
    else
      MulSucc(h, w);
      var rest := Rows(items[w..], h - 1, w);
      assert items[..h * w] == items[..w] + items[w..][..(h - 1) * w];
      [items[..w]] + rest
  }

  /**
   * `Array2D::from_iter_row_major(items, h, w)`: the first `h * w` items laid
   * out row by row; it fails when there are fewer items than that.
   */
  function FromRowMajor<T>(items: seq<T>, h: nat, w: nat): (r: Result<seq<seq<T>>>)
    ensures r.Ok? <==> |items| >= h * w
    ensures r.Ok? ==> IsRect(r.value, h, w) && Concat(r.value) == items[..h * w]
  {
    if |items| < h * w then Panic("not enough elements") else Ok(Rows(items, h, w))
  }

  /** In a rectangular map, cell (y, x) is item `y * w + x` of the row-major layout. */
  lemma {:induction false} ConcatIndex<T>(g: seq<seq<T>>, h: nat, w: nat, y: nat, x: nat)
    requires IsRect(g, h, w) && y < h && x < w
    ensures |Concat(g)| == h * w
    ensures y * w + x < h * w && Concat(g)[y * w + x] == g[y][x]
  {
    ConcatLength(g, h, w);
    MulSucc(h, w);
    if y > 0 {
      ConcatIndex(g[1..], h - 1, w, y - 1, x);
      MulSucc(y, w);
    }
  }

  lemma {:induction false} ConcatLength<T>(g: seq<seq<T>>, h: nat, w: nat)
    requires IsRect(g, h, w)
    ensures |Concat(g)| == h * w
  {
    if h > 0 {
      ConcatLength(g[1..], h - 1, w);
      MulSucc(h, w);
    }
  }

  /** `Array2D::column_iter(x)`: column `x` of a map read top to bottom. */
  function Column<T>(g: seq<seq<T>>, x: nat): (c: seq<T>)
    requires forall y :: 0 <= y < |g| ==> x < |g[y]|
    ensures |c| == |g| && forall y :: 0 <= y < |g| ==> c[y] == g[y][x]
  {
    seq(|g|, y requires 0 <= y < |g| => g[y][x])
  }

  /** The `w` columns of a map, each read top to bottom: the map transposed. */
  function Columns<T>(g: seq<seq<T>>, w: nat): (t: seq<seq<T>>)
    requires IsRect(g, |g|, w)
    ensures IsRect(t, w, |g|)
    ensures forall x :: 0 <= x < w ==> t[x] == Column(g, x)
  {
    seq(w, x requires 0 <= x < w => Column(g, x))
  }

  /** The number of rows the readers give a map: the number of '\n' in `contents`. */
  function Height(contents: string): nat { CountChar(contents, '\n') }

  /** The number of columns the readers give a map: the index of the first '\n'. */
  function Width(contents: string): nat {
    match IndexOf(contents, '\n')
    case None => 0
    case Some(w) => w
  }

  /** The characters the readers lay out: the lines before the first empty one. */
  function Cells(contents: string): string { Concat(Lines(contents)) }

  /**
   * `read_2d_map`: the cells laid out row-major in a `Height` by `Width`
   * map.  Panics without a newline or when there are too few characters.
   */
  function Read2dMap(contents: string): (r: Result<seq<seq<char>>>)
    ensures r.Ok? <==> '\n' in contents && |Cells(contents)| >= Height(contents) * Width(contents)
    ensures r.Ok? ==> IsRect(r.value, Height(contents), Width(contents))
    ensures r.Ok? ==> Concat(r.value) == Cells(contents)[..Height(contents) * Width(contents)]
  {
    if '\n' !in contents then Panic("no newline")
    else FromRowMajor(Cells(contents), Height(contents), Width(contents))
  }

  /** The items of `cells` as digit values, or None when one is not a decimal digit. */
  function DigitValues(cells: string): (r: Option<seq<nat>>)
    ensures r.Some? <==> AllDigits(cells)
    ensures r.Some? ==> |r.value| == |cells| && forall i :: 0 <= i < |cells| ==> r.value[i] == DigitValue(cells[i])
  {
    if |cells| == 0 then Some([])
    else if !IsDigit(cells[0]) then None
    else match DigitValues(cells[1..])
      case None => None
      case Some(rest) => Some([DigitValue(cells[0])] + rest)
  }

  /** The cells `read_2d_map_to_u8` converts: it stops after `Height * Width` of them. */
  function ReadCells(contents: string): (r: string)
    ensures |r| <= |Cells(contents)|
  {
    var n := Height(contents) * Width(contents);
    if |Cells(contents)| < n then Cells(contents) else Cells(contents)[..n]
  }

  /**
   * `read_2d_map_to_u8`: the same shape as `read_2d_map`, each cell the value
   * of its decimal digit; panics when a cell that is read is not a digit.
   */
  function Read2dMapToU8(contents: string): (r: Result<seq<seq<nat>>>)
    ensures r.Ok? <==> ('\n' in contents && |Cells(contents)| >= Height(contents) * Width(contents)
      && AllDigits(ReadCells(contents)))
    ensures r.Ok? ==> IsRect(r.value, Height(contents), Width(contents))
    ensures r.Ok? ==> (|ReadCells(contents)| == |Concat(r.value)|
      && forall i :: 0 <= i < |Concat(r.value)| ==> Concat(r.value)[i] == DigitValue(ReadCells(contents)[i]))
  {
    if '\n' !in contents then Panic("no newline")
    else
      match DigitValues(ReadCells(contents))
      case None => Panic("not a digit")
      case Some(values) => FromRowMajor(values, Height(contents), Width(contents))
  }

  /** Read2dMap: cell (y, x) is character x of line y whenever the lines are as wide as the first. */
  lemma Read2dMapCell(contents: string, y: nat, x: nat)
    requires Read2dMap(contents).Ok?
    requires forall i :: 0 <= i < |Lines(contents)| ==> |Lines(contents)[i]| == Width(contents)
    requires y < Height(contents) && x < Width(contents)
    ensures y < |Lines(contents)| && Read2dMap(contents).value[y][x] == Lines(contents)[y][x]
  {
    var lines, w, h, g := Lines(contents), Width(contents), Height(contents), Read2dMap(contents).value;
    ConcatLength(lines, |lines|, w);
    ConcatIndex(g, h, w, y, x);
    assert y < |lines| by {
      if |lines| <= y {
        MulLeq(|lines|, y, w);
      }
    }
    ConcatIndex(lines, |lines|, w, y, x);
  }

  /** The two readers agree on the dimensions of the map they build. */
  lemma ReadersSameShape(contents: string)
    requires Read2dMapToU8(contents).Ok?
    ensures Read2dMap(contents).Ok?
    ensures |Read2dMap(contents).value| == |Read2dMapToU8(contents).value|
    ensures forall y :: 0 <= y < |Read2dMap(contents).value| ==>
      |Read2dMap(contents).value[y]| == |Read2dMapToU8(contents).value[y]|
  {
  }
}
