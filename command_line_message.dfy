/**
 * The command-line message mode: the editor shows a message on the command
 * line with the cursor on it. Key presses move that cursor or, on Esc, send
 * the cursor back to the current window and return to normal mode.
 */
module CommandLineMessage {
  import opened Numeric
  import opened Geo
  import opened Common
  import opened Ops
  import opened Strings
  import opened CommandLineWidget

  // ---------------------------------------------------------------------------
  // Terminal events
  // ---------------------------------------------------------------------------

  datatype KeyCode = Up | Down | Left | Right | Home | End | Esc | Char(c: char) | OtherKey
  datatype KeyEventKind = Press | Repeat | Release
  datatype KeyEvent = KeyEvent(code: KeyCode, kind: KeyEventKind)

  /** A terminal event; the payloads of mouse events are not part of this model. */
  datatype Event =
    | FocusGained
    | FocusLost
    | Key(keyEvent: KeyEvent)
    | Mouse
    | Paste(text: string)
    | Resize(columns: u16, rows: u16)

  /** The key press of `code`. */
  function Pressed(code: KeyCode): Event
  {
    Key(KeyEvent(code, Press))
  }

  /** The operations this mode knows how to carry out. */
  predicate Handled(op: Operation)
  {
    IsCursorMove(op) || op.GotoNormalMode?
  }

  /**
   * `get_operation`: the operation a terminal event asks for. Only key presses
   * ask for one; every operation asked for is one this mode handles.
   */
  function GetOperation(event: Event): (r: Option<Operation>)
    ensures r.Some? ==> event.Key? && event.keyEvent.kind == Press
    ensures r.Some? ==> Handled(r.value)
  {
    match event
    case Key(KeyEvent(code, Press)) =>
      (match code
       case Up => Some(CursorMoveUpBy(1))
       case Char('k') => Some(CursorMoveUpBy(1))
       case Down => Some(CursorMoveDownBy(1))
       case Char('j') => Some(CursorMoveDownBy(1))
       case Left => Some(CursorMoveLeftBy(1))
       case Right => Some(CursorMoveRightBy(1))
       case Home => Some(CursorMoveLeftBy(USIZE_MAX))
       case End => Some(CursorMoveRightBy(USIZE_MAX))
       case Esc => Some(Operation.GotoNormalMode)
       case _ => None)
    case _ => None
  }

  /** The keys that ask for something: the arrows, `k`, `j`, Home, End and Esc; every other key and event asks for nothing. */
  lemma BoundKeys(event: Event)
    ensures GetOperation(event).Some? <==>
      event.Key? && event.keyEvent.kind == Press &&
      event.keyEvent.code in {Up, Down, Left, Right, Home, End, Esc, Char('k'), Char('j')}
  {
  }

  /**
   * Up and `k` move one line up, Down and `j` one line down, Left and Right
   * one character; Home and End move as far left or right as possible.
   */
  lemma KeyDirections(event: Event)
    requires GetOperation(event).Some? && event.keyEvent.code != Esc
    ensures var op := GetOperation(event).value;
      && IsRelativeCursorMove(op)
      && (event.keyEvent.code in {Up, Char('k')} <==> CursorOffset(op) == (0, -1))
      && (event.keyEvent.code in {Down, Char('j')} <==> CursorOffset(op) == (0, 1))
      && (event.keyEvent.code == Left <==> CursorOffset(op) == (-1, 0))
      && (event.keyEvent.code == Right <==> CursorOffset(op) == (1, 0))
      && (event.keyEvent.code == Home <==> CursorOffset(op) == (-USIZE_MAX, 0))
      && (event.keyEvent.code == End <==> CursorOffset(op) == (USIZE_MAX, 0))
  {
  }

  /** Esc, pressed, is the only event that asks to leave for normal mode. */
  lemma EscapeOnly(event: Event)
    ensures GetOperation(event) == Some(Operation.GotoNormalMode) <==> event == Pressed(Esc)
  {
  }

  // ---------------------------------------------------------------------------
  // Editor state
  // ---------------------------------------------------------------------------

  /** The editor mode a handler hands over to; the other modes are not part of this model. */
  datatype StatefulValue = NormalMode | CommandLineMessageMode

  /** The cursor shapes a terminal can show. */
  datatype CursorStyle =
    | DefaultUserShape | BlinkingBlock | SteadyBlock | BlinkingUnderScore | SteadyUnderScore | BlinkingBar | SteadyBar

  /** The cursor widget: its id, its style and its position within its parent widget. */
  datatype Cursor = Cursor(id: nat, style: CursorStyle, column: int, row: int)

  /** Where the cursor sits in a window's viewport, in terminal columns and rows. */
  datatype CursorViewport = CursorViewport(columnIdx: nat, rowIdx: nat)

  /**
   * The parts of the widget tree this mode touches: the cursor slot of the
   * current window, the cursor slot of the command line, the window's cursor
   * viewport and the command-line indicator.
   */
  class Tree {
    var windowCursor: Option<Cursor>
    var commandLineCursor: Option<Cursor>
    var windowCursorViewport: CursorViewport
    var indicator: IndicatorSymbol

    /** A tree with the cursor in the current window and an empty indicator. */
    constructor(cursor: Cursor, cursorViewport: CursorViewport)
      ensures windowCursor == Some(cursor) && commandLineCursor == None
      ensures windowCursorViewport == cursorViewport && indicator == Empty
    {
      windowCursor := Some(cursor);
      commandLineCursor := None;
      windowCursorViewport := cursorViewport;
      indicator := Empty;
    }

    /** `remove_cursor` on the current window. */
    method RemoveWindowCursor() returns (cursor: Option<Cursor>)
      modifies this
      ensures cursor == old(windowCursor) && windowCursor == None
      ensures commandLineCursor == old(commandLineCursor)
      ensures windowCursorViewport == old(windowCursorViewport) && indicator == old(indicator)
    {
      cursor := windowCursor;
      windowCursor := None;
    }

    /** `remove_cursor` on the command line. */
    method RemoveCommandLineCursor() returns (cursor: Option<Cursor>)
      modifies this
      ensures cursor == old(commandLineCursor) && commandLineCursor == None
      ensures windowCursor == old(windowCursor)
      ensures windowCursorViewport == old(windowCursorViewport) && indicator == old(indicator)
    {
      cursor := commandLineCursor;
      commandLineCursor := None;
    }

    /** `insert_cursor` on the current window; the cursor it held before is returned. */
    method InsertWindowCursor(cursor: Cursor) returns (previous: Option<Cursor>)
      modifies this
      ensures previous == old(windowCursor) && windowCursor == Some(cursor)
      ensures commandLineCursor == old(commandLineCursor)
      ensures windowCursorViewport == old(windowCursorViewport) && indicator == old(indicator)
    {
      previous := windowCursor;
      windowCursor := Some(cursor);
    }

    /** `insert_cursor` on the command line; the cursor it held before is returned. */
    method InsertCommandLineCursor(cursor: Cursor) returns (previous: Option<Cursor>)
      modifies this
      ensures previous == old(commandLineCursor) && commandLineCursor == Some(cursor)
      ensures windowCursor == old(windowCursor)
      ensures windowCursorViewport == old(windowCursorViewport) && indicator == old(indicator)
    {
      previous := commandLineCursor;
      commandLineCursor := Some(cursor);
    }

    /** `move_cursor_to` on the current window: its cursor, if any, goes to `(column, row)`. */
    method MoveWindowCursorTo(column: int, row: int)
      modifies this
      ensures windowCursor == if old(windowCursor).Some? then Some(old(windowCursor).value.(column := column, row := row)) else None
      ensures commandLineCursor == old(commandLineCursor)
      ensures windowCursorViewport == old(windowCursorViewport) && indicator == old(indicator)
    {
      if windowCursor.Some? {
        windowCursor := Some(windowCursor.value.(column := column, row := row));
      }
    }

    /** `move_cursor_to` on the command line: its cursor, if any, goes to `(column, row)`. */
    method MoveCommandLineCursorTo(column: int, row: int)
      modifies this
      ensures commandLineCursor == if old(commandLineCursor).Some? then Some(old(commandLineCursor).value.(column := column, row := row)) else None
      ensures windowCursor == old(windowCursor)
      ensures windowCursorViewport == old(windowCursorViewport) && indicator == old(indicator)
    {
      if commandLineCursor.Some? {
        commandLineCursor := Some(commandLineCursor.value.(column := column, row := row));
      }
    }

    /** `set_symbol` on the command-line indicator. */
    method SetIndicatorSymbol(symbol: IndicatorSymbol)
      modifies this
      ensures indicator == symbol
      ensures windowCursor == old(windowCursor) && commandLineCursor == old(commandLineCursor)
      ensures windowCursorViewport == old(windowCursorViewport)
    {
      indicator := symbol;
    }
  }

  /** The shared text contents; this mode uses the command line's text alone. */
  class TextContents {
    var commandLine: string

    constructor()
      ensures commandLine == []
    {
      commandLine := [];
    }
  }

  /** Everything this mode reads and changes, as one value. */
  datatype EditorState = EditorState(
    windowCursor: Option<Cursor>,
    commandLineCursor: Option<Cursor>,
    windowCursorViewport: CursorViewport,
    indicator: IndicatorSymbol,
    commandLine: string)

  function Snapshot(tree: Tree, contents: TextContents): EditorState
    reads tree, contents
  {
    EditorState(tree.windowCursor, tree.commandLineCursor, tree.windowCursorViewport, tree.indicator, contents.commandLine)
  }

  /** There is exactly one cursor, in the current window or on the command line. */
  predicate OneCursor(s: EditorState)
  {
    s.windowCursor.Some? != s.commandLineCursor.Some?
  }

  /** The cursor is on the command line, as it is while this mode is active. */
  predicate CursorOnCommandLine(s: EditorState)
  {
    s.windowCursor.None? && s.commandLineCursor.Some?
  }

  /** The cursor is in the current window, as it is in the other modes. */
  predicate CursorInWindow(s: EditorState)
  {
    s.windowCursor.Some? && s.commandLineCursor.None?
  }

  // ---------------------------------------------------------------------------
  // Cursor operations on the one-line command line
  // ---------------------------------------------------------------------------

  /** The character index the command-line cursor stands on: its column, kept within the text. */
  function CursorIndex(s: EditorState): (r: nat)
    requires s.commandLineCursor.Some?
    ensures r <= |s.commandLine|
  {
    Clamp(s.commandLineCursor.value.column, 0, |s.commandLine|)
  }

  /**
   * `cursor_ops::cursor_insert` on the command line: `payload` goes in at the
   * cursor, and the cursor ends up just after it.
   */
  function InsertText(s: EditorState, payload: string): (r: EditorState)
    requires s.commandLineCursor.Some?
  {
    var at := CursorIndex(s);
    s.(commandLine := s.commandLine[..at] + payload + s.commandLine[at..],
       commandLineCursor := Some(s.commandLineCursor.value.(column := at + |payload|, row := 0)))
  }

  /** `cursor_ops::cursor_clear` on the command line: the text is emptied and a cursor on it goes to the start. */
  function ClearText(s: EditorState): (r: EditorState)
  {
    s.(commandLine := [],
       commandLineCursor := if s.commandLineCursor.Some? then Some(s.commandLineCursor.value.(column := 0, row := 0)) else None)
  }

  /**
   * The column a cursor move takes the command-line cursor to: the target
   * column (the current one plus the offset, or the absolute one) kept within
   * `[0, |text|]`, the end of the text included. The command line is one line,
   * so the line part of a move has no effect.
   */
  function MovedColumn(column: int, length: nat, op: Operation): (r: nat)
    requires IsCursorMove(op)
    ensures r <= length
  {
    var target := if op.CursorMoveTo? then op.position.0 else column + CursorOffset(op).0;
    Clamp(target, 0, length)
  }

  /** `cursor_ops::cursor_move` on the command line. */
  function MoveCursor(s: EditorState, op: Operation): (r: EditorState)
    requires IsCursorMove(op)
  {
    if s.commandLineCursor.Some? then
      var cursor := s.commandLineCursor.value;
      s.(commandLineCursor := Some(cursor.(column := MovedColumn(cursor.column, |s.commandLine|, op), row := 0)))
    else s
  }

  /** Home and End take the cursor to the start and to the end of the text. */
  lemma HomeEnd(column: int, length: nat)
    requires 0 <= column <= length <= USIZE_MAX
    ensures MovedColumn(column, length, CursorMoveLeftBy(USIZE_MAX)) == 0
    ensures MovedColumn(column, length, CursorMoveRightBy(USIZE_MAX)) == length
  {
  }

  /**
   * From a column within the text, a move left never goes right and a move
   * right never goes left, each by at most its count; a move up or down
   * stays in place.
   */
  lemma MoveDirections(column: int, length: nat, n: usize)
    requires 0 <= column <= length
    ensures var r := MovedColumn(column, length, CursorMoveLeftBy(n)); r <= column && column - r <= n
    ensures var r := MovedColumn(column, length, CursorMoveRightBy(n)); column <= r && r - column <= n
    ensures MovedColumn(column, length, CursorMoveUpBy(n)) == column
    ensures MovedColumn(column, length, CursorMoveDownBy(n)) == column
  {
  }

  /** Inserting at the cursor keeps the text around it and puts the cursor just after the inserted text. */
  lemma InsertTextAround(s: EditorState, payload: string)
    requires s.commandLineCursor.Some?
    ensures var r := InsertText(s, payload); var at := CursorIndex(s);
      && |r.commandLine| == |s.commandLine| + |payload|
      && r.commandLine[..at] == s.commandLine[..at]
      && r.commandLine[at..at + |payload|] == payload
      && r.commandLine[at + |payload|..] == s.commandLine[at..]
      && CursorIndex(r) == at + |payload|
  {
  }

  // ---------------------------------------------------------------------------
  // The mode's transitions, as functions of the state
  // ---------------------------------------------------------------------------

  /**
   * `_cursor_insert`: the cursor leaves the window for the command line as a
   * steady bar at its start, the indicator shows `Ex`, and `payload` is
   * inserted at the cursor.
   */
  function InsertMessage(s: EditorState, payload: string): (r: EditorState)
    requires CursorInWindow(s)
  {
    var cursor := s.windowCursor.value.(style := SteadyBar);
    InsertText(s.(windowCursor := None, commandLineCursor := Some(cursor.(column := 0, row := 0)), indicator := Ex), payload)
  }

  /**
   * `_goto_normal_mode_impl`: the cursor goes back to the window as a steady
   * block at the window's cursor-viewport position, the command line is
   * cleared, the indicator shows `Empty`; the text the command line held,
   * trimmed, is returned.
   */
  function LeaveToNormal(s: EditorState): (r: (EditorState, string))
    requires CursorOnCommandLine(s)
  {
    var cursor := s.commandLineCursor.value.(style := SteadyBlock);
    var moved := s.(commandLineCursor := None,
                    windowCursor := Some(cursor.(column := s.windowCursorViewport.columnIdx, row := s.windowCursorViewport.rowIdx)));
    (ClearText(moved).(indicator := Empty), Trim(s.commandLine))
  }

  /** `handle_op`: the new state and the mode to hand over to. */
  function ApplyOp(s: EditorState, op: Operation): (r: (EditorState, StatefulValue))
    requires Handled(op)
    requires op.GotoNormalMode? ==> CursorOnCommandLine(s)
  {
    if op.GotoNormalMode? then (LeaveToNormal(s).0, NormalMode) else (MoveCursor(s, op), CommandLineMessageMode)
  }

  /** `handle`: the new state and the mode to hand over to, for a terminal event. */
  function HandleEvent(s: EditorState, event: Event): (r: (EditorState, StatefulValue))
    requires event == Pressed(Esc) ==> CursorOnCommandLine(s)
  {
    EscapeOnly(event);
    match GetOperation(event)
    case None => (s, CommandLineMessageMode)
    case Some(op) => ApplyOp(s, op)
  }

  /** Showing a message moves the one cursor, the same cursor, from the window onto the command line, at the end of the message. */
  lemma InsertMessageMovesCursor(s: EditorState, payload: string)
    requires CursorInWindow(s)
    ensures var r := InsertMessage(s, payload);
      && CursorOnCommandLine(r) && OneCursor(r)
      && r.commandLineCursor.value.id == s.windowCursor.value.id
      && r.commandLineCursor.value.style == SteadyBar
      && r.commandLineCursor.value.column == |payload| && r.commandLineCursor.value.row == 0
      && r.indicator == Ex && r.commandLine == payload + s.commandLine
      && r.windowCursorViewport == s.windowCursorViewport
  {
  }

  /**
   * Leaving for normal mode moves the one cursor, the same cursor, back into
   * the window at the cursor-viewport position, and returns the command-line
   * text without its surrounding whitespace.
   */
  lemma LeaveToNormalMovesCursor(s: EditorState)
    requires CursorOnCommandLine(s)
    ensures var (r, text) := LeaveToNormal(s);
      && CursorInWindow(r) && OneCursor(r)
      && r.windowCursor.value.id == s.commandLineCursor.value.id
      && r.windowCursor.value.style == SteadyBlock
      && r.windowCursor.value.column == s.windowCursorViewport.columnIdx
      && r.windowCursor.value.row == s.windowCursorViewport.rowIdx
      && r.indicator == Empty && r.commandLine == []
      && Trim(text) == text && (text == [] <==> AllWhitespace(s.commandLine))
  {
    TrimIdempotent(s.commandLine);
    TrimEmpty(s.commandLine);
  }

  /**
   * A message shown and then dismissed leaves the state as it was but for the
   * cursor style and position, an `Empty` indicator and an empty command
   * line; the text handed back is the message and the earlier text, trimmed.
   */
  lemma MessageRoundTrip(s: EditorState, payload: string)
    requires CursorInWindow(s)
    ensures var (r, text) := LeaveToNormal(InsertMessage(s, payload));
      var vp := s.windowCursorViewport;
      && r == s.(windowCursor := Some(s.windowCursor.value.(style := SteadyBlock, column := vp.columnIdx, row := vp.rowIdx)),
                 indicator := Empty, commandLine := [])
      && text == Trim(payload + s.commandLine)
  {
    InsertMessageMovesCursor(s, payload);
  }

  /**
   * While the mode is active, every event keeps exactly one cursor: Esc hands
   * over to normal mode with the cursor in the window, and every other event
   * stays in this mode with the cursor on the command line and the text
   * unchanged; after a cursor move the cursor is within the text.
   */
  lemma HandleKeepsOneCursor(s: EditorState, event: Event)
    requires CursorOnCommandLine(s)
    ensures var (r, next) := HandleEvent(s, event);
      && OneCursor(r)
      && (next == NormalMode <==> event == Pressed(Esc))
      && (next == NormalMode ==> CursorInWindow(r))
      && (next == CommandLineMessageMode ==>
            CursorOnCommandLine(r) && r.commandLine == s.commandLine && r.indicator == s.indicator
            && r.commandLineCursor.value.id == s.commandLineCursor.value.id)
      && (GetOperation(event).Some? && next == CommandLineMessageMode ==>
            0 <= r.commandLineCursor.value.column <= |r.commandLine| && r.commandLineCursor.value.row == 0)
      && (GetOperation(event).None? ==> r == s)
  {
    EscapeOnly(event);
    if event == Pressed(Esc) {
      LeaveToNormalMovesCursor(s);
    } else if GetOperation(event).Some? {
      var op := GetOperation(event).value;
      var cursor := s.commandLineCursor.value;
      assert HandleEvent(s, event).0 == MoveCursor(s, op);
      assert MoveCursor(s, op).commandLineCursor.value.column == MovedColumn(cursor.column, |s.commandLine|, op);
    }
  }

  // ---------------------------------------------------------------------------
  // The mode's transitions, on the shared tree and contents
  // ---------------------------------------------------------------------------

  /** `cursor_ops::cursor_insert` on the command line. */
  method CursorInsert(tree: Tree, contents: TextContents, payload: string)
    requires tree.commandLineCursor.Some?
    modifies tree, contents
    ensures Snapshot(tree, contents) == InsertText(old(Snapshot(tree, contents)), payload)
  {
    var at := Clamp(tree.commandLineCursor.value.column, 0, |contents.commandLine|);
    contents.commandLine := contents.commandLine[..at] + payload + contents.commandLine[at..];
    tree.MoveCommandLineCursorTo(at + |payload|, 0);
  }

  /** `cursor_ops::cursor_clear` on the command line. */
  method CursorClear(tree: Tree, contents: TextContents)
    modifies tree, contents
    ensures Snapshot(tree, contents) == ClearText(old(Snapshot(tree, contents)))
  {
    contents.commandLine := [];
    tree.MoveCommandLineCursorTo(0, 0);
  }

  /** `cursor_ops::cursor_move` on the command line. */
  method CursorMoveOnCommandLine(tree: Tree, contents: TextContents, op: Operation)
    requires IsCursorMove(op)
    modifies tree
    ensures Snapshot(tree, contents) == MoveCursor(old(Snapshot(tree, contents)), op)
  {
    if tree.commandLineCursor.Some? {
      var column := MovedColumn(tree.commandLineCursor.value.column, |contents.commandLine|, op);
      tree.MoveCommandLineCursorTo(column, 0);
    }
  }

  /** `_cursor_insert`. */
  method CursorInsertImpl(tree: Tree, contents: TextContents, payload: string)
    requires tree.windowCursor.Some? && tree.commandLineCursor.None?
    modifies tree, contents
    ensures Snapshot(tree, contents) == InsertMessage(old(Snapshot(tree, contents)), payload)
  {
    var removed := tree.RemoveWindowCursor();
    var cursor := removed.value.(style := SteadyBar);
    var previous := tree.InsertCommandLineCursor(cursor);
    tree.MoveCommandLineCursorTo(0, 0);
    tree.SetIndicatorSymbol(Ex);
    CursorInsert(tree, contents, payload);
  }

  /** `with_message`: shows `message` on the command line and enters this mode. */
  method WithMessage(message: string, tree: Tree, contents: TextContents) returns (mode: StatefulValue)
    requires tree.windowCursor.Some? && tree.commandLineCursor.None?
    modifies tree, contents
    ensures mode == CommandLineMessageMode
    ensures Snapshot(tree, contents) == InsertMessage(old(Snapshot(tree, contents)), message)
  {
    CursorInsertImpl(tree, contents, message);
    mode := CommandLineMessageMode;
  }

  /** `_goto_normal_mode_impl`. */
  method GotoNormalModeImpl(tree: Tree, contents: TextContents) returns (text: string)
    requires tree.commandLineCursor.Some? && tree.windowCursor.None?
    modifies tree, contents
    ensures (Snapshot(tree, contents), text) == LeaveToNormal(old(Snapshot(tree, contents)))
  {
    var removed := tree.RemoveCommandLineCursor();
    var cursor := removed.value.(style := SteadyBlock);

    var cursorViewport := tree.windowCursorViewport;
    var previous := tree.InsertWindowCursor(cursor);
    tree.MoveWindowCursorTo(cursorViewport.columnIdx, cursorViewport.rowIdx);

    var commandLine := contents.commandLine;
    CursorClear(tree, contents);

    text := Trim(commandLine);
    tree.SetIndicatorSymbol(Empty);
  }

  /** `goto_normal_mode`: leaves this mode for normal mode. */
  method GotoNormalMode(tree: Tree, contents: TextContents) returns (next: StatefulValue)
    requires tree.commandLineCursor.Some? && tree.windowCursor.None?
    modifies tree, contents
    ensures next == NormalMode
    ensures Snapshot(tree, contents) == LeaveToNormal(old(Snapshot(tree, contents))).0
  {
    var _ := GotoNormalModeImpl(tree, contents);
    next := NormalMode;
  }

  /** `cursor_move`: moves the command-line cursor and stays in this mode. */
  method CursorMove(tree: Tree, contents: TextContents, op: Operation) returns (next: StatefulValue)
    requires IsCursorMove(op)
    modifies tree
    ensures next == CommandLineMessageMode
    ensures Snapshot(tree, contents) == MoveCursor(old(Snapshot(tree, contents)), op)
  {
    CursorMoveOnCommandLine(tree, contents, op);
    next := CommandLineMessageMode;
  }

  /** `handle_op`: only cursor moves and `GotoNormalMode` reach this mode. */
  method HandleOp(tree: Tree, contents: TextContents, op: Operation) returns (next: StatefulValue)
    requires Handled(op)
    requires op.GotoNormalMode? ==> tree.commandLineCursor.Some? && tree.windowCursor.None?
    modifies tree, contents
    ensures (Snapshot(tree, contents), next) == ApplyOp(old(Snapshot(tree, contents)), op)
  {
    if op.GotoNormalMode? {
      next := GotoNormalMode(tree, contents);
    } else {
      next := CursorMove(tree, contents, op);
    }
  }

  /** `handle`: carries out the operation the event asks for, if any. */
  method Handle(tree: Tree, contents: TextContents, event: Event) returns (next: StatefulValue)
    requires event == Pressed(Esc) ==> tree.commandLineCursor.Some? && tree.windowCursor.None?
    modifies tree, contents
    ensures (Snapshot(tree, contents), next) == HandleEvent(old(Snapshot(tree, contents)), event)
  {
    EscapeOnly(event);
    var op := GetOperation(event);
    if op.Some? {
      next := HandleOp(tree, contents, op.value);
      return;
    }
    next := CommandLineMessageMode;
  }
}
