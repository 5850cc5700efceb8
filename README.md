# rsvim editor core in Dafny

This project models five parts of the core of the rsvim terminal editor.

- **The canvas renderer (`draw`).** It walks a viewport's line range row by row. Each row of the target rectangle gets:
  - `'>'` start fills;
  - the row's characters, each expanded to its display width;
  - blank padding;
  - `'<'` end fills.

  The rows left over are then blanked. The canvas frame is a class whose rows the renderer rewrites in place with `SetCellsAt`. The renderer is a nest of imperative methods, one per loop of rsvim's `draw`. Each is proved against a specification function: `Paint` of the `Screen` rows.
- **The command-line message mode.**
  - A key-event classifier turns terminal events into operations.
  - The `handle`/`handle_op` dispatch returns the next mode.
  - Two transitions move the single cursor between the current window and the command line: `with_message` and `goto_normal_mode`.
  - Cursor moves on the command line.

  The widget tree and the text contents are classes the transitions mutate. Each method is proved equal to a transition function on an `EditorState` value, and the properties are proved about those functions.
- **The operation vocabulary.** `Operation` and `GotoInsertModeVariant` are closed datatypes, with the signed offsets their variants stand for.
- **The command-line builder.** The default builder, the `with_*` setters and `build`. `build` assembles a root with two children, the indicator and the content, inside integer rectangles.
- **The JavaScript error type.** `JsError` with its `Display` and `Debug` text forms. `Debug` is also given as a loop method.

Every module is named after the part of the editor it models:

| module | what it models |
|---|---|
| `Numeric` | machine-width constants, the `u16` truncation |
| `Common` | `Option` and `Repeat` |
| `Geo` | integer and `u16` rectangles |
| `Canvas` | cells and the canvas frame |
| `Viewports` | the viewport and the text as the renderer reads them |
| `Draw` | the renderer |
| `Ops` | the operation vocabulary |
| `Strings` | `str::trim` |
| `CommandLineWidget` | the builder and the widget tree |
| `CommandLineMessage` | the mode |
| `JsErr` | the error type |

## Model

| member | source | states |
|---|---|---|
| Draw.Draw | rsvim_core/src/ui/viewport/draw.rs:13-204 | A zero-width or zero-height rectangle leaves the canvas unchanged. So does an empty line range, so no blank rows are written. Otherwise the rows of the rectangle are painted top to bottom with the cells of the screen rows: the rendered rows of every line, then blank rows. |
| Draw.DrawLines | rsvim_core/src/ui/viewport/draw.rs:38-193 | The line loop writes, in order, the rows of every line of the range, starting at the first row of the rectangle. The number of rows it returns is the number of rows the lines own. |
| Draw.DrawLine | rsvim_core/src/ui/viewport/draw.rs:51-62 | Each row viewport of a line takes exactly one terminal row, in order, and the row index advances by one per row. A line with no rows takes none. Fills are owed on the line's first and last row indices. |
| Draw.DrawRow | rsvim_core/src/ui/viewport/draw.rs:63-186 | Start fills, content, padding and end fills together write exactly `width` cells, and these are exactly the cells of the text row. The padding length is measured with `width_before`, and the column ends at `width`. No other row changes. |
| Draw.DrawRowHead | rsvim_core/src/ui/viewport/draw.rs:63-156 | The start fills are written from the row's left edge. The characters follow them. The column reached is the fills plus the width of the characters. |
| Draw.DrawContent | rsvim_core/src/ui/viewport/draw.rs:91-156 | Each character of the row's range is written as its glyph cells. The column advances by its display width; a width-0 character writes nothing. |
| Draw.DrawRun | rsvim_core/src/ui/viewport/draw.rs:81-89 | Writes `n` copies of a fill or padding cell from a given column and changes nothing else. Nothing is written when `n` is 0. |
| Draw.DrawBlankRows | rsvim_core/src/ui/viewport/draw.rs:195-203 | Every row from the row index reached to the bottom of the rectangle is filled with `width` spaces. |
| Draw.GlyphCellsShape | rsvim_core/src/ui/viewport/draw.rs:131-146 | A character of width 1 is one cell with its symbol. A character of width `w > 1` is its symbol followed by exactly `w - 1` empty cells. |
| Draw.ContentCellsAt | rsvim_core/src/ui/viewport/draw.rs:126-154 | The character at index `i` occupies the `w` columns after the width of the characters before it. Those columns hold its symbol and `w - 1` empty cells. |
| Draw.ContentCellsSplit | rsvim_core/src/ui/viewport/draw.rs:126-154 | The cells of adjacent character ranges are the concatenation of their cells. |
| Draw.RowCellsLayout | rsvim_core/src/ui/viewport/draw.rs:63-186 | A row that fits is `width` cells: start fills, the content, blank padding, then end fills at the right edge. |
| Draw.EdgeFills | rsvim_core/src/ui/viewport/draw.rs:63-89 | `'>'` fills sit from column 0 of a line's first row. `'<'` fills sit against the right edge of its last row. The characters follow the start fills. |
| Draw.LineRowOnScreen | rsvim_core/src/ui/viewport/draw.rs:63-79 | The fills the renderer computes by comparing the row index with the line's first and last row indices are those owed to that row. |
| Draw.ScreenRowOfLine | rsvim_core/src/ui/viewport/draw.rs:51-58 | Row `k` of line `l` lands on row `RowsBefore(l) + k` of the rectangle, below the rectangle's height. |
| Draw.ScreenRowCells | rsvim_core/src/ui/viewport/draw.rs:51-58 | Row `k` of line `l` takes its cells on the screen `RowsBefore(l) + k` rows down. |
| Draw.ScreenLine | rsvim_core/src/ui/viewport/draw.rs:51-62 | All rows of a line take their cells on the screen from the row after the lines above it. |
| Draw.ScreenLines | rsvim_core/src/ui/viewport/draw.rs:40-193 | Every line of a well-formed viewport can be drawn from the row after the lines above it, and its rows match the screen there. |
| Draw.ScreenFits | rsvim_core/src/ui/viewport/draw.rs:158-186 | The screen has `height` rows, and each fits the width. |
| Draw.ScreenBlankTail | rsvim_core/src/ui/viewport/draw.rs:195-203 | Every screen row below the rendered ones is `width` spaces. |
| Draw.ScreenBlank | rsvim_core/src/ui/viewport/draw.rs:195-203 | The screen is blank from the first row after the rendered ones. |
| Draw.RenderedFits | rsvim_core/src/ui/viewport/draw.rs:158-186 | Every rendered row of a well-formed viewport fits the width. |
| Draw.RenderedPrefix | rsvim_core/src/ui/viewport/draw.rs:40-193 | The rows of earlier lines stay in place as more lines are rendered. |
| Draw.RenderedRowOfLine | rsvim_core/src/ui/viewport/draw.rs:51-58 | Row `k` of line `l` is rendered at row `RowsBefore(l) + k`, whatever lines follow. |
| Draw.RowsBeforeMonotone | rsvim_core/src/ui/viewport/draw.rs:188 | Row indices never go back as lines advance. |
| Draw.WellFormedLine | rsvim_core/src/ui/viewport/draw.rs:40-58 | Each line of a well-formed viewport meets what drawing it from its first row index needs. |
| Draw.DrawnInside | rsvim_core/src/ui/viewport/draw.rs:86 | After drawing, every cell `(i, j)` inside the rectangle holds cell `i - minX` of screen row `j - minY`. Every cell of the rectangle is therefore overwritten. |
| Draw.DrawnOutside | rsvim_core/src/ui/viewport/draw.rs:147-149 | Drawing leaves every cell outside the rectangle as it was, and every row keeps its width. |
| Draw.ContentCells | rsvim_core/src/ui/viewport/draw.rs:126-154 | The cells of a character range number exactly its display width. |
| Draw.RowCells | rsvim_core/src/ui/viewport/draw.rs:158-186 | A row whose content and fills fit the width is exactly `width` cells. |
| Draw.Rendered | rsvim_core/src/ui/viewport/draw.rs:51-58 | The rendered rows number exactly the rows owned by the lines before the given one. |
| Draw.Screen | rsvim_core/src/ui/viewport/draw.rs:195-203 | When the lines' rows fit the height, the screen is exactly `height` rows. |
| Viewports.WidthOfSplit | rsvim_core/src/ui/viewport/draw.rs:158-166 | Display widths add up over adjacent character ranges. |
| Viewports.WidthBeforeRange | rsvim_core/src/ui/viewport/draw.rs:158-166 | `width_before(end) - width_before(start)` is the display width of the range `[start, end)`. |
| Canvas.Frame.SetCellsAt | rsvim_core/src/ui/viewport/draw.rs:86 | `set_cells_at` writes the run at its position in its row, and every other cell keeps its value. |
| Canvas.PaintRow | rsvim_core/src/ui/viewport/draw.rs:40-203 | After painting `n` runs, row `y + j` holds run `j` spliced into its old cells. |
| Canvas.PaintOther | rsvim_core/src/ui/viewport/draw.rs:40-203 | Painting leaves every row outside the painted band as it was. |
| Canvas.PaintWidths | rsvim_core/src/ui/viewport/draw.rs:40-203 | Painting keeps every row's width. |
| Canvas.PaintStep | rsvim_core/src/ui/viewport/draw.rs:188 | Painting one more run writes it on the next row, over what the earlier runs left. |
| Canvas.SpliceAt | rsvim_core/src/ui/viewport/draw.rs:86 | A cell of a spliced row comes from the run inside it and from the old row outside it. |
| Canvas.SpliceAppend | rsvim_core/src/ui/viewport/draw.rs:81-185 | Writing two runs one after the other writes their concatenation. |
| Ops.OperationVariants | rsvim_core/src/state/ops.rs:12-87 | The ordinals 0..20 are taken, in declaration order, by the 21 variants `Operation` declares. |
| Ops.Ordinal | rsvim_core/src/state/ops.rs:12-87 | Every operation has an ordinal below 21. |
| Ops.CursorOffset | rsvim_core/src/state/ops.rs:13-29 | In a relative cursor move, left and up are the negative directions and right and down the positive ones. A directional move changes one coordinate only. |
| Ops.ScrollOffset | rsvim_core/src/state/ops.rs:35-55 | Scroll offsets are in columns and lines. Left and up are the negative directions, right and down the positive ones. |
| Ops.DeleteSpan | rsvim_core/src/state/ops.rs:70-71 | A negative count deletes to the left of the cursor and a positive one to the right, never both. The difference of the two sides is the count. |
| CommandLineMessage.GetOperation | rsvim_core/src/state/fsm/command_line_message.rs:35-64 | Only key presses yield an operation, and every operation yielded is a cursor move or `GotoNormalMode`. |
| CommandLineMessage.BoundKeys | rsvim_core/src/state/fsm/command_line_message.rs:35-64 | An event yields an operation if and only if it is a press of an arrow key, `k`, `j`, Home, End or Esc. |
| CommandLineMessage.KeyDirections | rsvim_core/src/state/fsm/command_line_message.rs:43-52 | Up/`k` move up by 1 and Down/`j` down by 1. Left and Right move by 1. Home and End move left and right by `usize::MAX`. Each holds in both directions. |
| CommandLineMessage.EscapeOnly | rsvim_core/src/state/fsm/command_line_message.rs:53 | A press of Esc is exactly the event that yields `GotoNormalMode`. |
| CommandLineMessage.HandleKeepsOneCursor | rsvim_core/src/state/fsm/command_line_message.rs:68-93 | Every event keeps exactly one cursor. Esc alone leads to normal mode, with the cursor in the window. Other events stay in this mode with the cursor on the command line and the text unchanged. An event with no operation changes nothing. Assumed of the cursor_ops stand-in: after a cursor move the column lies within the text, on row 0. |
| CommandLineMessage.Handle | rsvim_core/src/state/fsm/command_line_message.rs:68-76 | The new state and the next mode are `HandleEvent` of the old state. |
| CommandLineMessage.HandleOp | rsvim_core/src/state/fsm/command_line_message.rs:78-93 | Cursor moves stay in this mode and `GotoNormalMode` leads to normal mode. Other operations are excluded by the precondition. |
| CommandLineMessage.WithMessage | rsvim_core/src/state/fsm/command_line_message.rs:23-31 | The mode is command-line message mode, and the state is `InsertMessage` of the old one. |
| CommandLineMessage.CursorInsertImpl | rsvim_core/src/state/fsm/command_line_message.rs:190-229 | The state becomes `InsertMessage` of the old state: the cursor is moved, restyled and placed, the indicator is set, and the text is inserted. |
| CommandLineMessage.InsertMessageMovesCursor | rsvim_core/src/state/fsm/command_line_message.rs:201-228 | The window's cursor slot empties, and the command line's slot receives the same cursor as a steady bar. The indicator shows `Ex`. Assumed of the cursor_ops stand-in: the cursor ends at column `|payload|` on row 0, and the text is the payload in front of the old text. |
| CommandLineMessage.GotoNormalModeImpl | rsvim_core/src/state/fsm/command_line_message.rs:97-152 | The new state and the returned text are `LeaveToNormal` of the old state. |
| CommandLineMessage.GotoNormalMode | rsvim_core/src/state/fsm/command_line_message.rs:154-161 | Leads to normal mode with the state `LeaveToNormal` makes. |
| CommandLineMessage.LeaveToNormalMovesCursor | rsvim_core/src/state/fsm/command_line_message.rs:107-151 | The same cursor goes back into the window as a steady block, at the window's cursor-viewport column and row. The indicator shows `Empty`, and (assumed of the cursor_clear stand-in) the command line is emptied. The returned text is trimmed, and it is empty exactly when the old text was all whitespace. |
| CommandLineMessage.MessageRoundTrip | rsvim_core/src/state/fsm/command_line_message.rs:23-31 | Showing a message and then leaving for normal mode restores the state except for the cursor's style and position, the `Empty` indicator and the empty command line. Assumed of the cursor_ops stand-in: the text returned is the message in front of the old text, trimmed. |
| CommandLineMessage.CursorMove | rsvim_core/src/state/fsm/command_line_message.rs:165-186 | Stays in this mode, and the state is `MoveCursor` of the old one. |
| CommandLineMessage.CursorMoveOnCommandLine | rsvim_core/src/state/fsm/command_line_message.rs:177-183 | Assumed of the cursor_ops stand-in: the command-line cursor moves to `MovedColumn`, and nothing else changes. |
| CommandLineMessage.CursorInsert | rsvim_core/src/state/fsm/command_line_message.rs:223-228 | Assumed of the cursor_ops stand-in: the state becomes `InsertText` of the old state. |
| CommandLineMessage.CursorClear | rsvim_core/src/state/fsm/command_line_message.rs:138-142 | Assumed of the cursor_ops stand-in: the state becomes `ClearText` of the old state. |
| CommandLineMessage.InsertTextAround | rsvim_core/src/state/fsm/command_line_message.rs:223-228 | Assumed of the cursor_ops stand-in: text before and after the cursor is kept, the payload sits between them, and the cursor ends just after the payload. |
| CommandLineMessage.MovedColumn | rsvim_core/src/state/fsm/command_line_message.rs:177-183 | Assumed of the cursor_ops stand-in: a cursor move never leaves the text; the column is at most its length. |
| CommandLineMessage.CursorIndex | rsvim_core/src/state/fsm/command_line_message.rs:223-228 | Assumed of the cursor_ops stand-in: the insertion point is the cursor's column, clamped to the text. |
| CommandLineMessage.HomeEnd | rsvim_core/src/state/fsm/command_line_message.rs:51-52 | Assumed of the cursor_ops stand-in: Home takes the cursor to the start of the text and End to its end. |
| CommandLineMessage.MoveDirections | rsvim_core/src/state/fsm/command_line_message.rs:43-50 | Assumed of the cursor_ops stand-in: a move left never goes right and a move right never goes left, each by at most its count. Up and down keep the column on the one-line command line. |
| CommandLineMessage.Tree.constructor | rsvim_core/src/state/fsm/command_line_message.rs:201-203 | A tree with the cursor in the window and none on the command line. |
| CommandLineMessage.Tree.RemoveWindowCursor | rsvim_core/src/state/fsm/command_line_message.rs:204-211 | Returns the window's cursor, empties that slot, and changes nothing else. |
| CommandLineMessage.Tree.RemoveCommandLineCursor | rsvim_core/src/state/fsm/command_line_message.rs:110-117 | Returns the command line's cursor, empties that slot, and changes nothing else. |
| CommandLineMessage.Tree.InsertWindowCursor | rsvim_core/src/state/fsm/command_line_message.rs:125-126 | Fills the window's slot and returns what it held. Nothing else changes. |
| CommandLineMessage.Tree.InsertCommandLineCursor | rsvim_core/src/state/fsm/command_line_message.rs:216-217 | Fills the command line's slot and returns what it held. Nothing else changes. |
| CommandLineMessage.Tree.MoveWindowCursorTo | rsvim_core/src/state/fsm/command_line_message.rs:127-130 | The window's cursor, if any, takes the new position. Nothing else changes. |
| CommandLineMessage.Tree.MoveCommandLineCursorTo | rsvim_core/src/state/fsm/command_line_message.rs:218 | The command line's cursor, if any, takes the new position. Nothing else changes. |
| CommandLineMessage.Tree.SetIndicatorSymbol | rsvim_core/src/state/fsm/command_line_message.rs:219-221 | The indicator shows the symbol. Nothing else changes. |
| Strings.TrimSlice | rsvim_core/src/state/fsm/command_line_message.rs:144 | The trimmed text is a middle slice of the text. Only whitespace lies outside it, and it neither starts nor ends with whitespace. |
| Strings.TrimIdempotent | rsvim_core/src/state/fsm/command_line_message.rs:144 | Trimming twice is trimming once. |
| Strings.TrimEmpty | rsvim_core/src/state/fsm/command_line_message.rs:144 | A text trims to nothing exactly when it is all whitespace. |
| Strings.TrimAround | rsvim_core/src/state/fsm/command_line_message.rs:144 | A text with no whitespace at either end, surrounded by whitespace, trims back to exactly itself. |
| Strings.TrimStart | rsvim_core/src/state/fsm/command_line_message.rs:144 | The result is a suffix of the text, only whitespace was removed, and it does not start with whitespace. |
| Strings.TrimEnd | rsvim_core/src/state/fsm/command_line_message.rs:144 | The result is a prefix of the text, only whitespace was removed, and it does not end with whitespace. |
| Strings.TrimStartPrefix | rsvim_core/src/state/fsm/command_line_message.rs:144 | Leading whitespace is all that `trim_start` removes. |
| Strings.TrimEndSuffix | rsvim_core/src/state/fsm/command_line_message.rs:144 | Trailing whitespace is all that `trim_end` removes. |
| Strings.TrimStartNoop | rsvim_core/src/state/fsm/command_line_message.rs:144 | A text without leading whitespace is unchanged by `trim_start`. |
| Strings.TrimEndNoop | rsvim_core/src/state/fsm/command_line_message.rs:144 | A text without trailing whitespace is unchanged by `trim_end`. |
| CommandLineWidget.CommandLineBuilder.constructor | rsvim_core/src/ui/widget/command_line/builder.rs:21-29 | The default builder has shape (0,0)-(1,1), detached text contents and the `Empty` symbol. |
| CommandLineWidget.CommandLineBuilder.WithShape | rsvim_core/src/ui/widget/command_line/builder.rs:32-35 | Replaces the shape and leaves the other two fields unchanged. |
| CommandLineWidget.CommandLineBuilder.WithTextContents | rsvim_core/src/ui/widget/command_line/builder.rs:37-43 | Replaces the text contents and leaves the other two fields unchanged. |
| CommandLineWidget.CommandLineBuilder.WithIndicatorSymbol | rsvim_core/src/ui/widget/command_line/builder.rs:45-51 | Replaces the indicator symbol and leaves the other two fields unchanged. |
| CommandLineWidget.CommandLineBuilder.Build | rsvim_core/src/ui/widget/command_line/builder.rs:53-134 | The result holds exactly three nodes: the root with the builder's shape, an indicator always showing `Empty`, and the content with the content shape. The root's children are the indicator then the content. The options are fixed (no wrap, no line break, scroll-off 0). The view is anchored at line 0, column 0, on the content shape as `u16`. There is no cursor, and the ids are those of the two children. |
| CommandLineWidget.Itree.constructor | rsvim_core/src/ui/widget/command_line/builder.rs:66 | A tree holding the root alone. |
| CommandLineWidget.Itree.BoundedInsert | rsvim_core/src/ui/widget/command_line/builder.rs:79 | The node becomes the last child of its parent, with no children of its own, and the tree stays well-formed. |
| CommandLineWidget.ContentOffset | rsvim_core/src/ui/widget/command_line/builder.rs:81-87 | The offset is 0 if and only if the symbol is `Empty`, and at most 1. |
| CommandLineWidget.ShapeLayout | rsvim_core/src/ui/widget/command_line/builder.rs:68-91 | The indicator is a zero-width column from `shape.min` to `(min.x, max.y)` spanning the shape's height. When the shape is wide enough, the content is `(min.x + off, min.y)`-`max`, `off` columns narrower than the shape. |
| CommandLineWidget.ExContentOutsideZeroWidthShape | rsvim_core/src/ui/widget/command_line/builder.rs:88-91 | For a zero-width shape with the `Ex` symbol, the rectangle constructor re-orders the corners, so the content is the one column just right of the shape. |
| Geo.NewIRect | rsvim_core/src/ui/widget/command_line/builder.rs:68-71 | The corners are re-ordered: `min` is at most `max` on each axis, and each axis keeps the two coordinates given. |
| Geo.AsU16Rect | rsvim_core/src/ui/widget/command_line/builder.rs:94-95 | A rectangle already inside the `u16` range converts coordinate for coordinate. |
| Numeric.AsU16 | rsvim_core/src/ui/viewport/draw.rs:164 | `x as u16` keeps `x` modulo 65536, and a value already in range is unchanged. |
| JsErr.FormatDebug | rsvim_core/src/js/err.rs:125-160 | The text the loops write is `DebugText`. |
| JsErr.DebugStartsWithHeader | rsvim_core/src/js/err.rs:119-129 | Both `Debug` and `Display` begin with `Uncaught <message>`. |
| JsErr.DebugWithoutSourceLine | rsvim_core/src/js/err.rs:132-155 | Without a source line, or with an empty one, `Debug` is the header alone, even when there is a stack. |
| JsErr.DebugStack | rsvim_core/src/js/err.rs:150-153 | With a non-empty source line, `"\n" + stack` is appended if and only if there is a stack. |
| JsErr.DebugMarker | rsvim_core/src/js/err.rs:133-148 | With a non-empty source line, `Debug` is the header, the source line on its own line, then `max(start, 0)` spaces and `max(end - start, 0)` carets. Missing columns are taken as 0. |
| JsErr.Marker | rsvim_core/src/js/err.rs:141-148 | The marker is `max(start, 0)` spaces followed by `max(end - start, 0)` carets. |
| JsErr.DisplayLocation | rsvim_core/src/js/err.rs:111-123 | `Display` is `Uncaught <message> (<resource>:<line>:<column>)`. The line and column written read back as the line number and start column, with 0 for a missing one. |
| JsErr.DisplayReadsLocationOnly | rsvim_core/src/js/err.rs:115-121 | `Display` depends only on the message, the resource name, the line number and the start column. Two errors that agree on those display alike, whatever their end column, source line and stack. |
| JsErr.IntToDecimalRoundTrip | rsvim_core/src/js/err.rs:119 | The decimal text of an `i64` reads back as that number. |
| JsErr.IntToDecimalInjective | rsvim_core/src/js/err.rs:119 | Different numbers are written differently. |
| JsErr.NatToDecimal | rsvim_core/src/js/err.rs:119 | A decimal is non-empty, all digits, and has no leading zero. |
| JsErr.NatToDecimalValue | rsvim_core/src/js/err.rs:119 | Reading the digits of a natural number back gives the number. |
| JsErr.DigitChar | rsvim_core/src/js/err.rs:119 | The digit character of `d` is the character `d` places after `'0'`. |

## Left out

- The canvas frame is modelled as a sequence of rows of cells rather than a flat buffer. `set_cells_at` writes a run within one row. The renderer writes no run that crosses a row end, so this costs nothing.
- Cell styles are not modelled. Every cell the renderer writes carries the default style, so only its symbol is kept.
- Display widths, symbols and `width_before` come from Unicode width tables, the tab-stop option and the rope. These are not part of this model. `Text` carries the symbol and width of each character as given functions, and `width_before` is the prefix sum of those widths.
- Draw.Draw: the debug assertions and `unwrap`s of the renderer are stated as its precondition `WellFormed`. These include rows numbered consecutively, the line's first row index equal to the current row, and content plus fills within the width. `Viewport::view`, which makes viewports, is not part of this model.
- Draw.DrawRow: `(end_dcol_idx - start_dcol_idx) as u16` is modelled with the explicit `u16` truncation. The `u16` column arithmetic is modelled on unbounded integers under the precondition `width < 65536`. Overflow past that cannot happen for a `u16` rectangle.
- `Viewport::view`, `CursorViewport::from_top_left` and the viewport and cursor viewport `build` stores are not part of this model. `build` records the arguments of the view (`ViewRequest`), and the cursor viewport is not recorded.
- CommandLineWidget.CommandLineBuilder.Build: the node ids, which the widget constructors allocate, are taken as distinct parameters. The weak handle on the text contents must be attached, as the source unwraps its upgrade. `Itree::bounded_insert` is a stand-in that appends the child; it does not bound the child's shape to its parent.
- CommandLineWidget: only the `Empty` and `Ex` indicator symbols appear in the source, so only those are modelled.
- `CommandLineBuilder::message_command_line` has the body `todo!()` and is left out.
- CommandLineMessage.CursorInsert, CommandLineMessage.CursorClear and CommandLineMessage.CursorMoveOnCommandLine are stand-ins for `cursor_ops::cursor_insert`, `cursor_clear` and `cursor_move`, whose bodies are not part of this model. The stand-ins model the command line as one line:
  - the cursor's column is taken as a character index, clamped to the text;
  - insertion happens at the cursor, and the cursor moves after the inserted text;
  - moves clamp to `[0, |text|]` and ignore their line part;
  - clearing empties the text and puts the cursor at 0.
- CommandLineMessage: the widget tree is reduced to what the mode touches: the two cursor slots, the window's cursor viewport and the indicator. The shared text contents are reduced to the command-line text. Mutex locking and `trace!` logging are left out, and everything is single-threaded.
- CommandLineMessage.HandleOp: operations other than cursor moves and `GotoNormalMode` are `unreachable!()` in the source, and the precondition `Handled` excludes them. The debug assertions about which slot holds the cursor are preconditions of the transitions.
- CommandLineMessage: only normal mode and command-line message mode are modelled among the `StatefulValue` modes. Mouse event payloads are not modelled, because every mouse event yields no operation.
- JsErr: the field accessors of `JsError` are the field selectors of the datatype. They return their field unchanged by construction, so no separate functions are stated.
- JsErr.Display has no contract of its own. What it writes is stated by JsErr.DisplayLocation, JsErr.DisplayReadsLocationOnly and JsErr.DebugStartsWithHeader.
- `JsError::from_v8_exception` calls into the JavaScript engine and is left out, with the rest of the V8 bindings, the JavaScript command bindings, the command-line argument parser and the TypeScript declarations.
- Ops: the variants of `Operation` carry no behaviour in the source. Their offsets and directions (CursorOffset, ScrollOffset, DeleteSpan) follow the variants' documentation. Equality of operations is the datatype's structural equality, which is what the derived `PartialEq`/`Eq` give; no lemma restates it.
- Strings.IsWhitespace: the Unicode `White_Space` code points are listed explicitly. No other Unicode data is modelled.
