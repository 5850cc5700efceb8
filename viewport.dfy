/**
 * The viewport a text is rendered through, and the text itself as the
 * renderer sees it: lines of characters, a symbol and a display width per
 * character.
 */
module Viewports {
  /** The half-open character range `[startCharIdx, endCharIdx)` of a line shown on one row. */
  datatype RowViewport = RowViewport(startCharIdx: nat, endCharIdx: nat)

  /** One entry of a line's ordered row map: terminal row index to its character range. */
  datatype RowEntry = RowEntry(rowIdx: nat, viewport: RowViewport)

  /**
   * `LineViewport`: the rows a line occupies, in increasing row order, and
   * the placeholder columns owed at the line's left and right edges.
   */
  datatype LineViewport = LineViewport(rows: seq<RowEntry>, startFilledCols: nat, endFilledCols: nat)

  /** `Viewport`: the line range `[startLineIdx, endLineIdx)` and each line's layout. */
  datatype Viewport = Viewport(startLineIdx: nat, endLineIdx: nat, lines: map<nat, LineViewport>)

  /**
   * `Text` as the renderer reads it: per-line characters, and the symbol and
   * display width of each character (`char_symbol_and_width`), which come
   * from Unicode width tables and the tab-stop option and are given here.
   */
  datatype Text = Text(lines: seq<seq<char>>, symbolOf: char -> string, widthOf: char -> nat)

  /** Sum of the display widths of the characters `line[s..e]`. */
  function WidthOf(text: Text, line: seq<char>, s: nat, e: nat): nat
    requires s <= e <= |line|
    decreases e
  {
    if e == s then 0 else WidthOf(text, line, s, e - 1) + text.widthOf(line[e - 1])
  }

  /** Widths add up over adjacent ranges. */
  lemma {:induction false} WidthOfSplit(text: Text, line: seq<char>, s: nat, m: nat, e: nat)
    requires s <= m <= e <= |line|
    ensures WidthOf(text, line, s, e) == WidthOf(text, line, s, m) + WidthOf(text, line, m, e)
    decreases e
  {
    if e > m {
      WidthOfSplit(text, line, s, m, e - 1);
    }
  }

  /**
   * `width_before(line_idx, char_idx)`: the display width of the first
   * `charIdx` characters of the line (the whole line if it is shorter; 0 for a
   * line the text does not have).
   */
  function WidthBefore(text: Text, lineIdx: nat, charIdx: nat): nat
  {
    if lineIdx < |text.lines| then
      var line := text.lines[lineIdx];
      WidthOf(text, line, 0, if charIdx <= |line| then charIdx else |line|)
    else 0
  }

  /** The width of a character range is the difference of the widths before its ends. */
  lemma WidthBeforeRange(text: Text, lineIdx: nat, s: nat, e: nat)
    requires lineIdx < |text.lines| && s <= e <= |text.lines[lineIdx]|
    ensures WidthBefore(text, lineIdx, e) - WidthBefore(text, lineIdx, s)
            == WidthOf(text, text.lines[lineIdx], s, e)
  {
    WidthOfSplit(text, text.lines[lineIdx], 0, s, e);
  }

  /** The layout of a line; a line the viewport does not hold occupies no rows. */
  function LineOf(vp: Viewport, lineIdx: nat): LineViewport
  {
    if lineIdx in vp.lines then vp.lines[lineIdx] else LineViewport([], 0, 0)
  }

  /** Terminal rows used by the lines of the viewport before `lineIdx`. */
  function RowsBefore(vp: Viewport, lineIdx: nat): nat
  {
    if lineIdx <= vp.startLineIdx then 0
    else RowsBefore(vp, lineIdx - 1) + |LineOf(vp, lineIdx - 1).rows|
  }
}
