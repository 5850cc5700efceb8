/** Terminal cells and the canvas frame they are written into. */
module Canvas {
  import opened Common

  /**
   * A logical cell. Only its display symbol is modelled: every cell the
   * renderer writes carries the default style.
   */
  datatype Cell = Cell(symbol: string)

  /** `Cell::from(c)`: a cell showing one character. */
  function CharCell(c: char): Cell { Cell([c]) }

  /** `Cell::empty()`: the placeholder that follows a wide glyph. */
  const EmptyCell: Cell := Cell("")

  /** `row` with the cells from column `x` on replaced by `run`. */
  function Splice<T>(row: seq<T>, x: nat, run: seq<T>): (r: seq<T>)
    requires x + |run| <= |row|
    ensures |r| == |row|
  {
    row[..x] + run + row[x + |run|..]
  }

  /** Cell `i` of a spliced row comes from the run inside it and from the row outside it. */
  lemma SpliceAt<T>(row: seq<T>, x: nat, run: seq<T>, i: nat)
    requires x + |run| <= |row| && i < |row|
    ensures Splice(row, x, run)[i] == if x <= i < x + |run| then run[i - x] else row[i]
  {
  }

  /** Writing two runs one after the other writes their concatenation. */
  lemma SpliceAppend<T>(row: seq<T>, x: nat, a: seq<T>, b: seq<T>)
    requires x + |a| + |b| <= |row|
    ensures Splice(Splice(row, x, a), x + |a|, b) == Splice(row, x, a + b)
  {
  }

  /**
   * `rows` with `run` written from column `x` of row `y` when it fits there
   * (`set_cells_at` on a row of the frame); otherwise `rows` unchanged.
   */
  function Put(rows: seq<seq<Cell>>, x: nat, y: nat, run: seq<Cell>): (r: seq<seq<Cell>>)
    ensures |r| == |rows|
  {
    if y < |rows| && x + |run| <= |rows[y]| then rows[y := Splice(rows[y], x, run)] else rows
  }

  /**
   * The first `n` of `runs` written one run per row from column `x`: run
   * `runs[j]` on row `y + j`.
   */
  function Paint(rows: seq<seq<Cell>>, runs: seq<seq<Cell>>, x: nat, y: nat, n: nat): (r: seq<seq<Cell>>)
    requires n <= |runs|
    ensures |r| == |rows|
  {
    if n == 0 then rows else Put(Paint(rows, runs, x, y, n - 1), x, y + (n - 1), runs[n - 1])
  }

  /** Painting one more run writes it on its row, over what the runs before it left. */
  lemma PaintStep(rows: seq<seq<Cell>>, runs: seq<seq<Cell>>, x: nat, y: nat, n: nat)
    requires n < |runs|
    requires var painted := Paint(rows, runs, x, y, n); y + n < |rows| && x + |runs[n]| <= |painted[y + n]|
    ensures var painted := Paint(rows, runs, x, y, n);
      Paint(rows, runs, x, y, n + 1) == painted[y + n := Splice(painted[y + n], x, runs[n])]
  {
  }

  /** Painting `n` runs leaves every row above row `y` and from row `y + n` on as it was. */
  lemma {:induction false} PaintOther(rows: seq<seq<Cell>>, runs: seq<seq<Cell>>, x: nat, y: nat, n: nat, r: nat)
    requires n <= |runs| && r < |rows| && (r < y || y + n <= r)
    ensures Paint(rows, runs, x, y, n)[r] == rows[r]
  {
    if n > 0 {
      PaintOther(rows, runs, x, y, n - 1, r);
    }
  }

  /** Painting keeps the width of every row. */
  lemma {:induction false} PaintWidths(rows: seq<seq<Cell>>, runs: seq<seq<Cell>>, x: nat, y: nat, n: nat, r: nat)
    requires n <= |runs| && r < |rows|
    ensures |Paint(rows, runs, x, y, n)[r]| == |rows[r]|
  {
    if n > 0 {
      PaintWidths(rows, runs, x, y, n - 1, r);
    }
  }

  /** Row `y + j`, for `j < n`, ends up holding `runs[j]` from column `x` on, over its old cells, when the run fits in it. */
  lemma {:induction false} PaintRow(rows: seq<seq<Cell>>, runs: seq<seq<Cell>>, x: nat, y: nat, n: nat, j: nat)
    requires j < n <= |runs| && y + j < |rows| && x + |runs[j]| <= |rows[y + j]|
    ensures Paint(rows, runs, x, y, n)[y + j] == Splice(rows[y + j], x, runs[j])
  {
    if j == n - 1 {
      PaintOther(rows, runs, x, y, n - 1, y + j);
    } else {
      PaintRow(rows, runs, x, y, n - 1, j);
      assert y + (n - 1) != y + j;
    }
  }

  /**
   * A canvas frame: rows of cells, each `columns` cells wide, row `y` column
   * `x` being cell `(x, y)`.
   */
  class Frame {
    const columns: nat
    var rows: seq<seq<Cell>>

    /** Every row is `columns` cells wide. */
    ghost predicate Valid()
      reads this
    {
      forall y :: 0 <= y < |rows| ==> |rows[y]| == columns
    }

    /** A frame of `height` rows of `columns` blank cells. */
    constructor (columns: nat, height: nat)
      ensures Valid() && this.columns == columns && |rows| == height
      ensures forall y :: 0 <= y < height ==> rows[y] == Repeat(CharCell(' '), columns)
    {
      this.columns := columns;
      rows := Repeat(Repeat(CharCell(' '), columns), height);
    }

    /**
     * `set_cells_at(pos, cells)`: writes `run` left to right from column `x`
     * of row `y`; every other cell keeps its value. The run must fit in the row.
     */
    method SetCellsAt(x: nat, y: nat, run: seq<Cell>)
      requires Valid() && y < |rows| && x + |run| <= columns
      modifies this
      ensures Valid()
      ensures rows == old(rows)[y := Splice(old(rows[y]), x, run)]
    {
      rows := rows[y := Splice(rows[y], x, run)];
    }
  }
}
