/**
 * Drawing a text, through its viewport, onto the canvas cells of a target
 * rectangle (`draw`).
 */
module Draw {
  import opened Numeric
  import opened Geo
  import opened Common
  import opened Canvas
  import opened Viewports

  // ---------------------------------------------------------------------------
  // What a drawn rectangle looks like
  // ---------------------------------------------------------------------------

  /** The cells of one character: its symbol followed by `width - 1` empty cells; none for width 0. */
  function GlyphCells(text: Text, c: char): (r: seq<Cell>)
  {
    seq(text.widthOf(c), i => if i == 0 then Cell(text.symbolOf(c)) else EmptyCell)
  }

  /**
   * The cells `draw` builds for a character of width `w > 0`: its symbol alone
   * when `w` is 1, else its symbol followed by `w - 1` empty cells.
   */
  lemma GlyphCellsShape(text: Text, c: char)
    requires text.widthOf(c) > 0
    ensures text.widthOf(c) == 1 ==> GlyphCells(text, c) == [Cell(text.symbolOf(c))]
    ensures text.widthOf(c) > 1 ==>
      GlyphCells(text, c) == [Cell(text.symbolOf(c))] + Repeat(EmptyCell, text.widthOf(c) - 1)
  {
  }

  /** The cells of the characters `line[s..e]`: one logical cell per terminal column. */
  function ContentCells(text: Text, line: seq<char>, s: nat, e: nat): (r: seq<Cell>)
    requires s <= e <= |line|
    ensures |r| == WidthOf(text, line, s, e)
    decreases e
  {
    if e == s then [] else ContentCells(text, line, s, e - 1) + GlyphCells(text, line[e - 1])
  }

  /** The cells of the characters a row viewport selects from its line (none when that range is not in the text). */
  function RowContent(text: Text, lineIdx: nat, rv: RowViewport): (r: seq<Cell>)
    ensures lineIdx < |text.lines| && rv.startCharIdx <= rv.endCharIdx <= |text.lines[lineIdx]| ==>
      |r| == WidthOf(text, text.lines[lineIdx], rv.startCharIdx, rv.endCharIdx)
  {
    if lineIdx < |text.lines| && rv.startCharIdx <= rv.endCharIdx <= |text.lines[lineIdx]|
    then ContentCells(text, text.lines[lineIdx], rv.startCharIdx, rv.endCharIdx)
    else []
  }

  /**
   * What one terminal row of the target rectangle shows: a row of a line,
   * with the fills owed on it, or a blank row below the text.
   */
  datatype RowSpec =
    | TextRow(lineIdx: nat, viewport: RowViewport, startFills: nat, endFills: nat)
    | BlankRow

  /**
   * The cells of a row: for a text row, `startFills` `'>'` cells, the content,
   * blank padding up to the width, then `endFills` `'<'` cells; for a blank
   * row, `width` spaces.
   */
  function RowCells(text: Text, row: RowSpec, width: nat): (r: seq<Cell>)
    ensures RowFits(text, row, width) ==> |r| == width
  {
    match row
    case BlankRow => Repeat(CharCell(' '), width)
    case TextRow(lineIdx, rv, startFills, endFills) =>
      var content := RowContent(text, lineIdx, rv);
      var occupied := startFills + |content| + endFills;
      Repeat(CharCell('>'), startFills) + content
        + Repeat(CharCell(' '), if width > occupied then width - occupied else 0)
        + Repeat(CharCell('<'), endFills)
  }

  /** A text row's range lies in its line, and its content and fills fit in the width. */
  predicate RowFits(text: Text, row: RowSpec, width: nat)
  {
    match row
    case BlankRow => true
    case TextRow(lineIdx, rv, startFills, endFills) =>
      lineIdx < |text.lines| && rv.startCharIdx <= rv.endCharIdx <= |text.lines[lineIdx]| &&
      startFills + WidthOf(text, text.lines[lineIdx], rv.startCharIdx, rv.endCharIdx) + endFills <= width
  }

  /** `cells` are the cells of a text row that fits the width. */
  ghost predicate TextRowCells(text: Text, lineIdx: nat, rv: RowViewport, startFills: nat, endFills: nat, width: nat,
                               cells: seq<Cell>)
  {
    RowFits(text, TextRow(lineIdx, rv, startFills, endFills), width) &&
    cells == RowCells(text, TextRow(lineIdx, rv, startFills, endFills), width)
  }

  /** Every row of `rows` fits. */
  ghost predicate AllFit(text: Text, rows: seq<RowSpec>, width: nat)
  {
    forall y :: 0 <= y < |rows| ==> RowFits(text, rows[y], width)
  }

  /** Left fills are owed on the first row of a line only. */
  function StartFills(lv: LineViewport, k: nat): nat
  {
    if k == 0 then lv.startFilledCols else 0
  }

  /** Right fills are owed on the last row of a line only. */
  function EndFills(lv: LineViewport, k: nat): nat
  {
    if k + 1 == |lv.rows| then lv.endFilledCols else 0
  }

  /** The `k`-th row of line `lineIdx`. */
  function LineRow(vp: Viewport, lineIdx: nat, k: nat): RowSpec
    requires k < |LineOf(vp, lineIdx).rows|
  {
    var lv := LineOf(vp, lineIdx);
    TextRow(lineIdx, lv.rows[k].viewport, StartFills(lv, k), EndFills(lv, k))
  }

  /** The first `n` rows of line `lineIdx`. */
  function RowsOfLine(vp: Viewport, lineIdx: nat, n: nat): (r: seq<RowSpec>)
    requires n <= |LineOf(vp, lineIdx).rows|
    ensures |r| == n
    ensures forall k :: 0 <= k < n ==> r[k] == LineRow(vp, lineIdx, k)
  {
    seq(n, k requires 0 <= k < n => LineRow(vp, lineIdx, k))
  }

  /** The rows of all lines of the viewport before `lineIdx`, top to bottom. */
  function Rendered(vp: Viewport, lineIdx: nat): (r: seq<RowSpec>)
    ensures |r| == RowsBefore(vp, lineIdx)
  {
    if lineIdx <= vp.startLineIdx then []
    else Rendered(vp, lineIdx - 1) + RowsOfLine(vp, lineIdx - 1, |LineOf(vp, lineIdx - 1).rows|)
  }

  /**
   * What `draw` requires of a viewport it renders: every line of the range is
   * laid out and present in the text; rows are numbered consecutively from 0
   * across the lines; the rows fit the height; each row's content and fills
   * fit the width.
   */
  ghost predicate WellFormed(vp: Viewport, text: Text, width: nat, height: nat)
  {
    && vp.endLineIdx <= |text.lines|
    && (forall l :: vp.startLineIdx <= l < vp.endLineIdx ==> l in vp.lines)
    && (forall l :: vp.startLineIdx <= l < vp.endLineIdx ==> RowsBefore(vp, l) < height)
    && RowsBefore(vp, vp.endLineIdx) <= height
    && (forall l, k :: vp.startLineIdx <= l < vp.endLineIdx && l in vp.lines && 0 <= k < |vp.lines[l].rows| ==>
          vp.lines[l].rows[k].rowIdx == RowsBefore(vp, l) + k)
    && (forall l, k :: vp.startLineIdx <= l < vp.endLineIdx && 0 <= k < |LineOf(vp, l).rows| ==>
          RowFits(text, LineRow(vp, l, k), width))
  }

  /**
   * What drawing line `lineIdx` from row `rowIdx` needs: the line is laid out,
   * its rows are numbered on from `rowIdx` and fit below `height`, and each
   * fits the width.
   */
  ghost predicate LineWellFormed(vp: Viewport, text: Text, lineIdx: nat, rowIdx: nat, width: nat, height: nat)
  {
    && lineIdx in vp.lines
    && rowIdx + |vp.lines[lineIdx].rows| <= height
    && (forall k :: 0 <= k < |vp.lines[lineIdx].rows| ==> vp.lines[lineIdx].rows[k].rowIdx == rowIdx + k)
    && (forall k :: 0 <= k < |vp.lines[lineIdx].rows| ==> RowFits(text, LineRow(vp, lineIdx, k), width))
  }

  /** Each line of a well-formed viewport can be drawn from the row after the lines above it. */
  lemma WellFormedLine(vp: Viewport, text: Text, width: nat, height: nat, lineIdx: nat)
    requires WellFormed(vp, text, width, height)
    requires vp.startLineIdx <= lineIdx < vp.endLineIdx
    ensures LineWellFormed(vp, text, lineIdx, RowsBefore(vp, lineIdx), width, height)
  {
    RowsBeforeMonotone(vp, lineIdx + 1, vp.endLineIdx);
  }

  /** The rows of the whole target rectangle after drawing: the rendered rows, then blank rows. */
  function Screen(vp: Viewport, height: nat): (r: seq<RowSpec>)
    ensures RowsBefore(vp, vp.endLineIdx) <= height ==> |r| == height
  {
    var rendered := Rendered(vp, vp.endLineIdx);
    rendered + Repeat(BlankRow, if |rendered| <= height then height - |rendered| else 0)
  }

  /** `draw` does something only for a non-empty rectangle and a non-empty line range. */
  predicate Draws(vp: Viewport, shape: U16Rect)
  {
    Width(shape) > 0 && Height(shape) > 0 && vp.startLineIdx < vp.endLineIdx
  }

  /** The cells of each of `rows`, `width` columns each for rows that fit. */
  function Cells(text: Text, rows: seq<RowSpec>, width: nat): (r: seq<seq<Cell>>)
    ensures |r| == |rows|
  {
    seq(|rows|, i requires 0 <= i < |rows| => RowCells(text, rows[i], width))
  }

  /** Row `k` of line `lineIdx` takes the cells of row `rowIdx + k` of `screen`. */
  ghost predicate RowOnScreen(vp: Viewport, text: Text, lineIdx: nat, rowIdx: nat, k: nat, width: nat, screen: seq<seq<Cell>>)
  {
    k < |LineOf(vp, lineIdx).rows| &&
    rowIdx + k < |screen| && screen[rowIdx + k] == RowCells(text, LineRow(vp, lineIdx, k), width)
  }

  /** The rows of line `lineIdx` take the cells of `screen` from row `rowIdx` on. */
  ghost predicate LineOnScreen(vp: Viewport, text: Text, lineIdx: nat, rowIdx: nat, width: nat, screen: seq<seq<Cell>>)
  {
    forall k :: 0 <= k < |LineOf(vp, lineIdx).rows| ==> RowOnScreen(vp, text, lineIdx, rowIdx, k, width, screen)
  }

  /**
   * Every line of the viewport's range can be drawn from the row after the
   * lines above it, and its rows take their cells on `screen` there.
   */
  ghost predicate LinesOnScreen(vp: Viewport, text: Text, width: nat, height: nat, screen: seq<seq<Cell>>)
  {
    forall l :: vp.startLineIdx <= l < vp.endLineIdx ==>
      LineWellFormed(vp, text, l, RowsBefore(vp, l), width, height) &&
      LineOnScreen(vp, text, l, RowsBefore(vp, l), width, screen)
  }

  /** The rows of `screen` from `rowIdx` on are blank. */
  ghost predicate BlankFrom(screen: seq<seq<Cell>>, rowIdx: nat, width: nat)
  {
    forall r :: rowIdx <= r < |screen| ==> screen[r] == Repeat(CharCell(' '), width)
  }

  // ---------------------------------------------------------------------------
  // The renderer
  // ---------------------------------------------------------------------------

  /**
   * `draw`: writes the viewport's rows into the rectangle `actualShape` of the
   * canvas, then blanks the rows left over. A zero-sized rectangle or an empty
   * line range leaves the canvas as it was; otherwise the rows of the
   * rectangle are painted, top to bottom, with the cells of the `Screen` rows.
   */
  method Draw(viewport: Viewport, text: Text, actualShape: U16Rect, canvas: Frame)
    requires canvas.Valid()
    requires Draws(viewport, actualShape) ==> actualShape.maxY <= |canvas.rows| && actualShape.maxX <= canvas.columns
    requires Draws(viewport, actualShape) ==> WellFormed(viewport, text, Width(actualShape), Height(actualShape))
    modifies canvas
    ensures canvas.Valid()
    ensures !Draws(viewport, actualShape) ==> canvas.rows == old(canvas.rows)
    ensures Draws(viewport, actualShape) ==>
      canvas.rows == Paint(old(canvas.rows),
                           Cells(text, Screen(viewport, Height(actualShape)), Width(actualShape)),
                           actualShape.minX, actualShape.minY, Height(actualShape))
  {
    var ux, uy := actualShape.minX, actualShape.minY;
    var height := actualShape.maxY - actualShape.minY;
    var width := actualShape.maxX - actualShape.minX;

    if height == 0 || width == 0 {
      return;
    }
    if viewport.endLineIdx <= viewport.startLineIdx {
      return;
    }

    assert width == Width(actualShape) && height == Height(actualShape);
    ghost var screen := Cells(text, Screen(viewport, height), width);
    ScreenLines(viewport, text, width, height);
    var rowIdx := DrawLines(canvas, viewport, text, ux, uy, width, height, screen);
    ScreenBlank(viewport, text, width, height);
    DrawBlankRows(canvas, ux, uy, rowIdx, width, height, screen, old(canvas.rows));
  }

  /**
   * The line loop of `draw`: the rows of every line of the viewport's range,
   * top to bottom, from the first row of the rectangle on. Returns the number
   * of rows written; painting the rest of `screen` from there finishes the
   * painting of all of it.
   */
  method DrawLines(canvas: Frame, viewport: Viewport, text: Text, ux: nat, uy: nat, width: nat, height: nat,
                   ghost screen: seq<seq<Cell>>)
    returns (rowIdx: nat)
    requires viewport.startLineIdx <= viewport.endLineIdx && RowsBefore(viewport, viewport.endLineIdx) <= height
    requires LinesOnScreen(viewport, text, width, height, screen) && |screen| == height
    requires canvas.Valid() && uy + height <= |canvas.rows| && ux + width <= canvas.columns && width < U16_LIMIT
    modifies canvas
    ensures canvas.Valid() && |canvas.rows| == |old(canvas.rows)|
    ensures rowIdx == RowsBefore(viewport, viewport.endLineIdx)
    ensures canvas.rows == Paint(old(canvas.rows), screen, ux, uy, rowIdx)
  {
    rowIdx := 0;
    var lineIdx := viewport.startLineIdx;
    while lineIdx < viewport.endLineIdx
      invariant viewport.startLineIdx <= lineIdx <= viewport.endLineIdx
      invariant rowIdx == RowsBefore(viewport, lineIdx)
      invariant canvas.Valid() && |canvas.rows| == |old(canvas.rows)|
      invariant rowIdx <= height
      invariant canvas.rows == Paint(old(canvas.rows), screen, ux, uy, rowIdx)
    {
      assert LineWellFormed(viewport, text, lineIdx, rowIdx, width, height);
      assert LineOnScreen(viewport, text, lineIdx, rowIdx, width, screen);
      rowIdx := DrawLine(canvas, viewport, text, lineIdx, rowIdx, ux, uy, width, height, screen, old(canvas.rows));
      lineIdx := lineIdx + 1;
    }
  }

  /**
   * The trailing loop of `draw`: every row of the rectangle from row `rowIdx`
   * to the last one is filled with spaces, which paints the rest of `screen`.
   */
  method DrawBlankRows(canvas: Frame, ux: nat, uy: nat, rowIdx: nat, width: nat, height: nat,
                       ghost screen: seq<seq<Cell>>, ghost orig: seq<seq<Cell>>)
    requires rowIdx <= height == |screen| && BlankFrom(screen, rowIdx, width)
    requires canvas.Valid() && uy + height <= |canvas.rows| && ux + width <= canvas.columns
    requires canvas.rows == Paint(orig, screen, ux, uy, rowIdx)
    modifies canvas
    ensures canvas.Valid()
    ensures canvas.rows == Paint(orig, screen, ux, uy, height)
  {
    var y := rowIdx;
    while y < height
      invariant rowIdx <= y <= height
      invariant canvas.Valid() && |canvas.rows| == |old(canvas.rows)|
      invariant canvas.rows == Paint(orig, screen, ux, uy, y)
    {
      PaintStep(orig, screen, ux, uy, y);
      canvas.SetCellsAt(ux, uy + y, Repeat(CharCell(' '), width));
      y := y + 1;
    }
  }

  /**
   * One iteration of `draw`'s line loop: the rows of line `lineIdx`, in row
   * order, from row `uy + rowIdx` of the canvas on. The fills are owed on the
   * row whose index is the line's first (start fills) or last (end fills)
   * row index. Returns the row index after the line: painting `screen` from
   * there gives what painting it from `rowIdx` gives.
   */
  method DrawLine(canvas: Frame, viewport: Viewport, text: Text, lineIdx: nat, rowIdx: nat,
                  ux: nat, uy: nat, width: nat, height: nat, ghost screen: seq<seq<Cell>>, ghost orig: seq<seq<Cell>>)
    returns (nextRowIdx: nat)
    requires LineWellFormed(viewport, text, lineIdx, rowIdx, width, height)
    requires LineOnScreen(viewport, text, lineIdx, rowIdx, width, screen) && |screen| == height
    requires canvas.Valid() && uy + height <= |canvas.rows| && ux + width <= canvas.columns && width < U16_LIMIT
    requires canvas.rows == Paint(orig, screen, ux, uy, rowIdx)
    modifies canvas
    ensures canvas.Valid()
    ensures nextRowIdx == rowIdx + |LineOf(viewport, lineIdx).rows|
    ensures canvas.rows == Paint(orig, screen, ux, uy, nextRowIdx)
  {
    var lineViewport := viewport.lines[lineIdx];
    var rows := lineViewport.rows;
    nextRowIdx := rowIdx;
    if |rows| > 0 {
      var firstRowIdx := rows[0].rowIdx;
      var lastRowIdx := rows[|rows| - 1].rowIdx;
      for k := 0 to |rows|
        invariant nextRowIdx == rowIdx + k
        invariant canvas.Valid()
        invariant canvas.rows == Paint(orig, screen, ux, uy, nextRowIdx)
      {
        var startFills :=
          if nextRowIdx == firstRowIdx && lineViewport.startFilledCols > 0
          then AsU16(lineViewport.startFilledCols) else 0;
        var endFills :=
          if nextRowIdx == lastRowIdx && lineViewport.endFilledCols > 0
          then AsU16(lineViewport.endFilledCols) else 0;
        ghost var cells := screen[nextRowIdx];
        LineRowOnScreen(viewport, text, lineIdx, rowIdx, width, height, screen, k, nextRowIdx, startFills, endFills);
        PaintStep(orig, screen, ux, uy, nextRowIdx);
        DrawRow(canvas, text, lineIdx, rows[k].viewport, startFills, endFills, ux, uy + nextRowIdx, width, cells);
        nextRowIdx := nextRowIdx + 1;
      }
    }
  }

  /**
   * The fills `draw` computes for the `k`-th row of a line, comparing the row
   * index with the line's first and last, are those the screen owes that row.
   */
  lemma LineRowOnScreen(vp: Viewport, text: Text, lineIdx: nat, rowIdx: nat, width: nat, height: nat,
                        screen: seq<seq<Cell>>, k: nat, y: nat, startFills: nat, endFills: nat)
    requires LineWellFormed(vp, text, lineIdx, rowIdx, width, height)
    requires LineOnScreen(vp, text, lineIdx, rowIdx, width, screen)
    requires k < |vp.lines[lineIdx].rows| && y == rowIdx + k && width < U16_LIMIT
    requires var lv := vp.lines[lineIdx];
      startFills == (if y == lv.rows[0].rowIdx && lv.startFilledCols > 0 then AsU16(lv.startFilledCols) else 0)
    requires var lv := vp.lines[lineIdx];
      endFills == (if y == lv.rows[|lv.rows| - 1].rowIdx && lv.endFilledCols > 0 then AsU16(lv.endFilledCols) else 0)
    ensures y < height && y < |screen| && |screen[y]| == width
    ensures TextRowCells(text, lineIdx, vp.lines[lineIdx].rows[k].viewport, startFills, endFills, width, screen[y])
  {
    var lv := vp.lines[lineIdx];
    assert lv.rows[0].rowIdx == rowIdx && lv.rows[|lv.rows| - 1].rowIdx == rowIdx + |lv.rows| - 1;
    assert lv.rows[k].rowIdx == rowIdx + k;
    assert RowFits(text, LineRow(vp, lineIdx, k), width);
    assert startFills == StartFills(lv, k) && endFills == EndFills(lv, k);
    assert LineRow(vp, lineIdx, k) == TextRow(lineIdx, lv.rows[k].viewport, startFills, endFills);
    assert RowOnScreen(vp, text, lineIdx, rowIdx, k, width, screen);
  }

  /**
   * The body of one row of `draw`: start fills, the row's characters, blank
   * padding and end fills, each written with `set_cells_at`. Row `y` ends up
   * holding exactly the cells of the text row over `width` columns from `x0`;
   * no other row changes.
   */
  method DrawRow(canvas: Frame, text: Text, lineIdx: nat, rowViewport: RowViewport,
                 startFills: nat, endFills: nat, x0: nat, y: nat, width: nat, ghost cells: seq<Cell>)
    requires canvas.Valid() && y < |canvas.rows| && x0 + width <= canvas.columns && width < U16_LIMIT
    requires TextRowCells(text, lineIdx, rowViewport, startFills, endFills, width, cells)
    modifies canvas
    ensures canvas.Valid()
    ensures canvas.rows == old(canvas.rows)[y := Splice(old(canvas.rows[y]), x0, cells)]
  {
    var s, e := rowViewport.startCharIdx, rowViewport.endCharIdx;
    ghost var head := Repeat(CharCell('>'), startFills) + ContentCells(text, text.lines[lineIdx], s, e);
    ghost var orig := canvas.rows[y];
    var colIdx := DrawRowHead(canvas, text, lineIdx, s, e, startFills, x0, y);

    // Blank padding: the occupied width is measured with `width_before`.
    var endDcolIdx := WidthBefore(text, lineIdx, e);
    var startDcolIdx := WidthBefore(text, lineIdx, s);
    WidthBeforeRange(text, lineIdx, s, e);
    var occupiedLength := AsU16(endDcolIdx - startDcolIdx) + startFills + endFills;
    var leftLength := if width > occupiedLength then width - occupiedLength else 0;
    DrawRun(canvas, x0 + colIdx, y, ' ', leftLength);
    colIdx := colIdx + leftLength;
    ghost var padding := Repeat(CharCell(' '), leftLength);
    SpliceAppend(orig, x0, head, padding);

    // End fills.
    DrawRun(canvas, x0 + colIdx, y, '<', endFills);
    colIdx := colIdx + endFills;
    SpliceAppend(orig, x0, head + padding, Repeat(CharCell('<'), endFills));
    assert colIdx == width;
  }

  /** The start fills and the characters of a row, from column `x0` of row `y`; returns the column after them. */
  method DrawRowHead(canvas: Frame, text: Text, lineIdx: nat, s: nat, e: nat, startFills: nat, x0: nat, y: nat)
    returns (colIdx: nat)
    requires lineIdx < |text.lines| && s <= e <= |text.lines[lineIdx]|
    requires canvas.Valid() && y < |canvas.rows| && x0 + startFills + WidthOf(text, text.lines[lineIdx], s, e) <= canvas.columns
    modifies canvas
    ensures canvas.Valid()
    ensures colIdx == startFills + WidthOf(text, text.lines[lineIdx], s, e)
    ensures canvas.rows == old(canvas.rows)[y := Splice(old(canvas.rows[y]), x0,
                                              Repeat(CharCell('>'), startFills) + ContentCells(text, text.lines[lineIdx], s, e))]
  {
    ghost var content := ContentCells(text, text.lines[lineIdx], s, e);
    ghost var orig := canvas.rows[y];
    colIdx := 0;

    // Start fills.
    DrawRun(canvas, x0 + colIdx, y, '>', startFills);
    colIdx := colIdx + startFills;

    // Line content.
    if e > s {
      var contentWidth := DrawContent(canvas, text, lineIdx, s, e, x0 + colIdx, y);
      colIdx := colIdx + contentWidth;
    } else {
      assert Splice(canvas.rows[y], x0 + colIdx, content) == canvas.rows[y];
    }
    SpliceAppend(orig, x0, Repeat(CharCell('>'), startFills), content);
  }

  /**
   * `n` copies of `c` written from column `x` of row `y` (the start fills,
   * padding and end fills of a row); nothing is written when `n` is 0.
   */
  method DrawRun(canvas: Frame, x: nat, y: nat, c: char, n: nat)
    requires canvas.Valid() && y < |canvas.rows| && x + n <= canvas.columns
    modifies canvas
    ensures canvas.Valid()
    ensures canvas.rows == old(canvas.rows)[y := Splice(old(canvas.rows[y]), x, Repeat(CharCell(c), n))]
  {
    if n > 0 {
      var cells := Repeat(CharCell(c), n);
      canvas.SetCellsAt(x, y, cells);
    } else {
      assert Splice(canvas.rows[y], x, Repeat(CharCell(c), n)) == canvas.rows[y];
    }
  }

  /**
   * The character loop of one row of `draw`: each character of
   * `[s, e)` is expanded into its glyph cells (nothing for width 0) from column
   * `x` on, and the column advances by the character's width.
   */
  method DrawContent(canvas: Frame, text: Text, lineIdx: nat, s: nat, e: nat, x: nat, y: nat) returns (colIdx: nat)
    requires lineIdx < |text.lines| && s <= e <= |text.lines[lineIdx]|
    requires canvas.Valid() && y < |canvas.rows| && x + WidthOf(text, text.lines[lineIdx], s, e) <= canvas.columns
    modifies canvas
    ensures canvas.Valid()
    ensures colIdx == WidthOf(text, text.lines[lineIdx], s, e)
    ensures canvas.rows == old(canvas.rows)[y := Splice(old(canvas.rows[y]), x, ContentCells(text, text.lines[lineIdx], s, e))]
  {
    var line := text.lines[lineIdx];
    ghost var orig := canvas.rows[y];
    var charIdx := s;
    colIdx := 0;
    assert Splice(orig, x, []) == orig;
    assert canvas.rows == old(canvas.rows)[y := orig];
    while charIdx < e
      invariant s <= charIdx <= e
      invariant colIdx == WidthOf(text, line, s, charIdx)
      invariant |orig| == canvas.columns && x + colIdx <= canvas.columns
      invariant canvas.Valid()
      invariant canvas.rows == old(canvas.rows)[y := Splice(orig, x, ContentCells(text, line, s, charIdx))]
    {
      var c := line[charIdx];
      var unicodeSymbol, unicodeWidth := text.symbolOf(c), text.widthOf(c);
      WidthOfSplit(text, line, s, charIdx + 1, e);
      ghost var done := ContentCells(text, line, s, charIdx);
      if unicodeWidth > 0 {
        var cells := if unicodeWidth > 1
          then [Cell(unicodeSymbol)] + Repeat(EmptyCell, unicodeWidth - 1)
          else [Cell(unicodeSymbol)];
        GlyphCellsShape(text, c);
        canvas.SetCellsAt(x + colIdx, y, cells);
        SpliceAppend(orig, x, done, cells);
        colIdx := colIdx + unicodeWidth;
      } else {
        assert done + GlyphCells(text, c) == done;
      }
      charIdx := charIdx + 1;
    }
  }

  // ---------------------------------------------------------------------------
  // Properties of the drawn rectangle
  // ---------------------------------------------------------------------------

  /** Every rendered row fits the width. */
  lemma {:induction false} RenderedFits(vp: Viewport, text: Text, width: nat, height: nat, lineIdx: nat)
    requires WellFormed(vp, text, width, height)
    requires lineIdx <= vp.endLineIdx
    ensures AllFit(text, Rendered(vp, lineIdx), width)
    decreases lineIdx
  {
    if lineIdx > vp.startLineIdx {
      var l := lineIdx - 1;
      RenderedFits(vp, text, width, height, l);
      var before := Rendered(vp, l);
      var line := RowsOfLine(vp, l, |LineOf(vp, l).rows|);
      forall y | 0 <= y < |before + line|
        ensures RowFits(text, (before + line)[y], width)
      {
        if y >= |before| {
          assert (before + line)[y] == LineRow(vp, l, y - |before|);
        }
      }
    }
  }

  /**
   * The layout of a text row that fits: `startFills` `'>'` cells at the left
   * edge, the content cells, blank padding, and `endFills` `'<'` cells at the
   * right edge, `width` cells in all.
   */
  lemma RowCellsLayout(text: Text, row: RowSpec, width: nat)
    requires row.TextRow? && RowFits(text, row, width)
    ensures var r := RowCells(text, row, width);
            var content := RowContent(text, row.lineIdx, row.viewport);
            && |r| == width
            && r[..row.startFills] == Repeat(CharCell('>'), row.startFills)
            && r[row.startFills..row.startFills + |content|] == content
            && r[row.startFills + |content|..width - row.endFills]
               == Repeat(CharCell(' '), width - row.endFills - row.startFills - |content|)
            && r[width - row.endFills..] == Repeat(CharCell('<'), row.endFills)
  {
  }

  /** The cells of adjacent ranges are the concatenation of their cells. */
  lemma {:induction false} ContentCellsSplit(text: Text, line: seq<char>, s: nat, m: nat, e: nat)
    requires s <= m <= e <= |line|
    ensures ContentCells(text, line, s, e) == ContentCells(text, line, s, m) + ContentCells(text, line, m, e)
    decreases e
  {
    if e == m {
      assert ContentCells(text, line, m, e) == [];
    } else {
      ContentCellsSplit(text, line, s, m, e - 1);
      ConcatAssoc(ContentCells(text, line, s, m), ContentCells(text, line, m, e - 1), GlyphCells(text, line[e - 1]));
    }
  }

  lemma ConcatAssoc<T>(a: seq<T>, b: seq<T>, c: seq<T>)
    ensures (a + b) + c == a + (b + c)
  {
  }

  /**
   * Cell-width invariant: the character at position `i` of the range
   * `[s, e)` occupies the columns `[WidthOf(s, i), WidthOf(s, i) + w)` of the
   * range's cells, where `w` is its display width, and those columns hold its
   * glyph cells: one cell with its symbol followed by `w - 1` empty cells (no
   * columns at all when `w` is 0).
   */
  lemma ContentCellsAt(text: Text, line: seq<char>, s: nat, i: nat, e: nat)
    requires s <= i < e <= |line|
    ensures var col := WidthOf(text, line, s, i);
            var r := ContentCells(text, line, s, e);
            && col + text.widthOf(line[i]) <= |r|
            && r[col..col + text.widthOf(line[i])] == GlyphCells(text, line[i])
  {
    ContentCellsSplit(text, line, s, i + 1, e);
  }

  lemma {:induction false} RowsBeforeMonotone(vp: Viewport, l: nat, m: nat)
    requires l <= m
    ensures RowsBefore(vp, l) <= RowsBefore(vp, m)
    decreases m
  {
    if m > l {
      RowsBeforeMonotone(vp, l, m - 1);
    }
  }

  /** The rows of earlier lines stay in place as more lines are rendered. */
  lemma {:induction false} RenderedPrefix(vp: Viewport, l: nat, m: nat, y: nat)
    requires l <= m && y < RowsBefore(vp, l)
    ensures y < |Rendered(vp, m)| && Rendered(vp, m)[y] == Rendered(vp, l)[y]
    decreases m
  {
    RowsBeforeMonotone(vp, l, m);
    if m > l {
      RenderedPrefix(vp, l, m - 1, y);
    }
  }

  /** Row `k` of line `l` is rendered at row `RowsBefore(l) + k`, whatever lines follow it. */
  lemma RenderedRowOfLine(vp: Viewport, l: nat, k: nat, m: nat)
    requires vp.startLineIdx <= l < m && k < |LineOf(vp, l).rows|
    ensures RowsBefore(vp, l) + k < RowsBefore(vp, m)
    ensures Rendered(vp, m)[RowsBefore(vp, l) + k] == LineRow(vp, l, k)
  {
    var y := RowsBefore(vp, l) + k;
    assert Rendered(vp, l + 1)[y] == LineRow(vp, l, k);
    RenderedPrefix(vp, l + 1, m, y);
  }

  /**
   * Each row viewport takes exactly one terminal row, in order: row `k` of line
   * `l` is drawn on row `RowsBefore(l) + k` of the rectangle.
   */
  lemma ScreenRowOfLine(vp: Viewport, text: Text, width: nat, height: nat, l: nat, k: nat)
    requires RowsBefore(vp, vp.endLineIdx) <= height
    requires vp.startLineIdx <= l < vp.endLineIdx && k < |LineOf(vp, l).rows|
    ensures RowsBefore(vp, l) + k < height
    ensures Screen(vp, height)[RowsBefore(vp, l) + k] == LineRow(vp, l, k)
  {
    RenderedRowOfLine(vp, l, k, vp.endLineIdx);
  }

  /** The screen of a well-formed viewport has `height` rows, each fitting the width. */
  lemma ScreenFits(vp: Viewport, text: Text, width: nat, height: nat)
    requires WellFormed(vp, text, width, height)
    ensures |Screen(vp, height)| == height
    ensures AllFit(text, Screen(vp, height), width)
  {
    RenderedFits(vp, text, width, height, vp.endLineIdx);
  }

  /** Rows below the last rendered one are blank across the whole width. */
  lemma ScreenBlankTail(vp: Viewport, text: Text, width: nat, height: nat, y: nat)
    requires RowsBefore(vp, vp.endLineIdx) <= height
    requires RowsBefore(vp, vp.endLineIdx) <= y < height
    ensures RowCells(text, Screen(vp, height)[y], width) == Repeat(CharCell(' '), width)
  {
  }

  /** Row `k` of line `l` takes its cells on the screen, `RowsBefore(l) + k` rows down. */
  lemma ScreenRowCells(vp: Viewport, text: Text, width: nat, height: nat, l: nat, k: nat)
    requires RowsBefore(vp, vp.endLineIdx) <= height
    requires vp.startLineIdx <= l < vp.endLineIdx && k < |LineOf(vp, l).rows|
    ensures RowOnScreen(vp, text, l, RowsBefore(vp, l), k, width, Cells(text, Screen(vp, height), width))
  {
    var rows := Screen(vp, height);
    var y := RowsBefore(vp, l) + k;
    ScreenRowOfLine(vp, text, width, height, l, k);
    assert y < |rows| == |Cells(text, rows, width)|;
    assert rows[y] == LineRow(vp, l, k);
    assert Cells(text, rows, width)[y] == RowCells(text, LineRow(vp, l, k), width);
  }

  /** The rows of line `l` take their cells on the screen from the row after the lines above. */
  lemma ScreenLine(vp: Viewport, text: Text, width: nat, height: nat, l: nat)
    requires RowsBefore(vp, vp.endLineIdx) <= height
    requires vp.startLineIdx <= l < vp.endLineIdx
    ensures LineOnScreen(vp, text, l, RowsBefore(vp, l), width, Cells(text, Screen(vp, height), width))
  {
    forall k | 0 <= k < |LineOf(vp, l).rows|
      ensures RowOnScreen(vp, text, l, RowsBefore(vp, l), k, width, Cells(text, Screen(vp, height), width))
    {
      ScreenRowCells(vp, text, width, height, l, k);
    }
  }

  /** Every line of the range can be drawn, and its rows take their cells on the screen. */
  lemma ScreenLines(vp: Viewport, text: Text, width: nat, height: nat)
    requires WellFormed(vp, text, width, height)
    ensures LinesOnScreen(vp, text, width, height, Cells(text, Screen(vp, height), width))
  {
    forall l | vp.startLineIdx <= l < vp.endLineIdx
      ensures LineWellFormed(vp, text, l, RowsBefore(vp, l), width, height)
      ensures LineOnScreen(vp, text, l, RowsBefore(vp, l), width, Cells(text, Screen(vp, height), width))
    {
      WellFormedLine(vp, text, width, height, l);
      ScreenLine(vp, text, width, height, l);
    }
  }

  /** The screen rows below the rendered ones are blank. */
  lemma ScreenBlank(vp: Viewport, text: Text, width: nat, height: nat)
    requires RowsBefore(vp, vp.endLineIdx) <= height
    ensures BlankFrom(Cells(text, Screen(vp, height), width), RowsBefore(vp, vp.endLineIdx), width)
  {
    forall y | RowsBefore(vp, vp.endLineIdx) <= y < height
      ensures Cells(text, Screen(vp, height), width)[y] == Repeat(CharCell(' '), width)
    {
      ScreenBlankTail(vp, text, width, height, y);
    }
  }

  /**
   * `'>'` fills are drawn from column 0 of a line's first row, and `'<'` fills
   * up to the right edge of its last row; the characters of the row follow the
   * left fills.
   */
  lemma EdgeFills(vp: Viewport, text: Text, width: nat, height: nat, l: nat, k: nat)
    requires WellFormed(vp, text, width, height)
    requires vp.startLineIdx <= l < vp.endLineIdx && k < |LineOf(vp, l).rows|
    ensures RowsBefore(vp, l) + k < height
    ensures var row := RowCells(text, Screen(vp, height)[RowsBefore(vp, l) + k], width);
            var lv := LineOf(vp, l);
            var sf := StartFills(lv, k);
            var content := RowContent(text, l, lv.rows[k].viewport);
            && |row| == width
            && (k == 0 ==> lv.startFilledCols <= width && row[..lv.startFilledCols] == Repeat(CharCell('>'), lv.startFilledCols))
            && (k + 1 == |lv.rows| ==> lv.endFilledCols <= width && row[width - lv.endFilledCols..] == Repeat(CharCell('<'), lv.endFilledCols))
            && sf + |content| <= width && row[sf..sf + |content|] == content
  {
    ScreenRowOfLine(vp, text, width, height, l, k);
    var row := LineRow(vp, l, k);
    assert RowFits(text, row, width);
    RowCellsLayout(text, row, width);
  }

  /**
   * What `draw` leaves on the canvas inside the target rectangle: the cells
   * of the screen row, cell by cell.
   */
  lemma DrawnInside(vp: Viewport, text: Text, shape: U16Rect, before: seq<seq<Cell>>, columns: nat, i: nat, j: nat)
    requires Draws(vp, shape) && WellFormed(vp, text, Width(shape), Height(shape))
    requires shape.maxY <= |before| && shape.maxX <= columns
    requires forall r :: 0 <= r < |before| ==> |before[r]| == columns
    requires shape.minX <= i < shape.maxX && shape.minY <= j < shape.maxY
    ensures var after := Paint(before, Cells(text, Screen(vp, Height(shape)), Width(shape)), shape.minX, shape.minY, Height(shape));
      && |after| == |before| && |after[j]| == columns
      && after[j][i] == RowCells(text, Screen(vp, Height(shape))[j - shape.minY], Width(shape))[i - shape.minX]
  {
    var width, height := Width(shape), Height(shape);
    var screen := Cells(text, Screen(vp, height), width);
    ScreenFits(vp, text, width, height);
    var y := j - shape.minY;
    assert RowFits(text, Screen(vp, height)[y], width);
    assert screen[y] == RowCells(text, Screen(vp, height)[y], width);
    assert |screen[y]| == width && shape.minY + y == j;
    PaintRow(before, screen, shape.minX, shape.minY, height, y);
    assert Paint(before, screen, shape.minX, shape.minY, height)[j] == Splice(before[j], shape.minX, screen[y]);
    SpliceAt(before[j], shape.minX, screen[y], i);
  }

  /** `draw` leaves every cell outside the target rectangle as it was. */
  lemma DrawnOutside(vp: Viewport, text: Text, shape: U16Rect, before: seq<seq<Cell>>, i: nat, j: nat)
    requires Draws(vp, shape) && WellFormed(vp, text, Width(shape), Height(shape))
    requires shape.maxY <= |before| && shape.maxX <= |before[shape.minY]|
    requires j < |before| && i < |before[j]|
    requires forall r :: 0 <= r < |before| ==> |before[r]| == |before[shape.minY]|
    requires !(shape.minX <= i < shape.maxX && shape.minY <= j < shape.maxY)
    ensures var after := Paint(before, Cells(text, Screen(vp, Height(shape)), Width(shape)), shape.minX, shape.minY, Height(shape));
      && |after| == |before| && |after[j]| == |before[j]| && after[j][i] == before[j][i]
  {
    var width, height := Width(shape), Height(shape);
    var screen := Cells(text, Screen(vp, height), width);
    ScreenFits(vp, text, width, height);
    PaintWidths(before, screen, shape.minX, shape.minY, height, j);
    if shape.minY <= j < shape.maxY {
      var y := j - shape.minY;
      assert RowFits(text, Screen(vp, height)[y], width);
      assert screen[y] == RowCells(text, Screen(vp, height)[y], width);
      PaintRow(before, screen, shape.minX, shape.minY, height, y);
      SpliceAt(before[j], shape.minX, screen[y], i);
    } else {
      PaintOther(before, screen, shape.minX, shape.minY, height, j);
    }
  }
}
