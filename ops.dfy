/**
 * The low-level editor operations: the closed vocabulary of intents that
 * sits between terminal events and the editor state (`Operation`).
 */
module Ops {
  import opened Numeric

  /** The motion made when entering insert mode. */
  datatype GotoInsertModeVariant =
    | Keep      // the cursor stays where it is
    | Append    // the cursor moves to the next column
    | NewLine   // a new line is created and the cursor moves onto it

  /**
   * An editor operation. Offsets in `(chars, lines)` or `(columns, lines)`
   * pairs are signed: negative means left or up, positive right or down.
   * Window scrolling counts columns, not characters.
   */
  datatype Operation =
    | CursorMoveBy(offset: (isize, isize))            // (chars, lines)
    | CursorMoveLeftBy(n: usize)
    | CursorMoveRightBy(n: usize)
    | CursorMoveUpBy(n: usize)
    | CursorMoveDownBy(n: usize)
    | CursorMoveTo(position: (usize, usize))            // (char_idx, line_idx)
    | WindowScrollBy(offset: (isize, isize))          // (columns, lines)
    | WindowScrollLeftBy(n: usize)
    | WindowScrollRightBy(n: usize)
    | WindowScrollUpBy(n: usize)
    | WindowScrollDownBy(n: usize)
    | WindowScrollTo(position: (usize, usize))          // (column_idx, line_idx)
    | GotoInsertMode(variant: GotoInsertModeVariant)
    | GotoNormalMode
    | CursorInsert(text: string)
    | CursorDelete(count: isize)
    | GotoCommandLineExMode
    | GotoCommandLineSearchForwardMode
    | GotoCommandLineSearchBackwardMode
    | ConfirmExCommandAndGotoNormalMode
    | EditorQuit

  /** The number of variants of `Operation`. */
  const OPERATION_VARIANTS: nat := 21

  /** The position of an operation's variant in the declaration. */
  function Ordinal(op: Operation): (r: nat)
    ensures r < OPERATION_VARIANTS
  {
    match op
    case CursorMoveBy(_) => 0
    case CursorMoveLeftBy(_) => 1
    case CursorMoveRightBy(_) => 2
    case CursorMoveUpBy(_) => 3
    case CursorMoveDownBy(_) => 4
    case CursorMoveTo(_) => 5
    case WindowScrollBy(_) => 6
    case WindowScrollLeftBy(_) => 7
    case WindowScrollRightBy(_) => 8
    case WindowScrollUpBy(_) => 9
    case WindowScrollDownBy(_) => 10
    case WindowScrollTo(_) => 11
    case GotoInsertMode(_) => 12
    case GotoNormalMode => 13
    case CursorInsert(_) => 14
    case CursorDelete(_) => 15
    case GotoCommandLineExMode => 16
    case GotoCommandLineSearchForwardMode => 17
    case GotoCommandLineSearchBackwardMode => 18
    case ConfirmExCommandAndGotoNormalMode => 19
    case EditorQuit => 20
  }

  /** One operation of each variant, in declaration order. */
  const Samples: seq<Operation> := [
    CursorMoveBy((0, 0)), CursorMoveLeftBy(0), CursorMoveRightBy(0), CursorMoveUpBy(0),
    CursorMoveDownBy(0), CursorMoveTo((0, 0)), WindowScrollBy((0, 0)), WindowScrollLeftBy(0),
    WindowScrollRightBy(0), WindowScrollUpBy(0), WindowScrollDownBy(0), WindowScrollTo((0, 0)),
    GotoInsertMode(Keep), GotoNormalMode, CursorInsert(""), CursorDelete(0), GotoCommandLineExMode,
    GotoCommandLineSearchForwardMode, GotoCommandLineSearchBackwardMode,
    ConfirmExCommandAndGotoNormalMode, EditorQuit]

  /** The ordinals 0..20 are taken, in declaration order, by one operation of each variant. */
  lemma OperationVariants()
    ensures |Samples| == OPERATION_VARIANTS
    ensures forall i :: 0 <= i < |Samples| ==> Ordinal(Samples[i]) == i
  {
  }

  /** The operations that move the cursor relative to where it is. */
  predicate IsRelativeCursorMove(op: Operation)
  {
    op.CursorMoveBy? || op.CursorMoveLeftBy? || op.CursorMoveRightBy? || op.CursorMoveUpBy? || op.CursorMoveDownBy?
  }

  /** The operations that move the cursor, relatively or to an absolute position. */
  predicate IsCursorMove(op: Operation)
  {
    IsRelativeCursorMove(op) || op.CursorMoveTo?
  }

  /**
   * The `(chars, lines)` offset of a relative cursor move: left and up are
   * negative, right and down positive.
   */
  function CursorOffset(op: Operation): (r: (int, int))
    requires IsRelativeCursorMove(op)
    ensures op.CursorMoveLeftBy? || op.CursorMoveRightBy? ==> r.1 == 0 && (r.0 <= 0 <==> op.CursorMoveLeftBy? || op.n == 0)
    ensures op.CursorMoveUpBy? || op.CursorMoveDownBy? ==> r.0 == 0 && (r.1 <= 0 <==> op.CursorMoveUpBy? || op.n == 0)
  {
    match op
    case CursorMoveBy(offset) => offset
    case CursorMoveLeftBy(n) => (-(n as int), 0)
    case CursorMoveRightBy(n) => (n, 0)
    case CursorMoveUpBy(n) => (0, -(n as int))
    case CursorMoveDownBy(n) => (0, n)
  }

  /** The operations that scroll the window relative to where it is. */
  predicate IsRelativeScroll(op: Operation)
  {
    op.WindowScrollBy? || op.WindowScrollLeftBy? || op.WindowScrollRightBy? || op.WindowScrollUpBy? || op.WindowScrollDownBy?
  }

  /**
   * The `(columns, lines)` offset of a relative window scroll: left and up are
   * negative, right and down positive; columns are terminal columns.
   */
  function ScrollOffset(op: Operation): (r: (int, int))
    requires IsRelativeScroll(op)
    ensures op.WindowScrollLeftBy? || op.WindowScrollRightBy? ==> r.1 == 0 && (r.0 <= 0 <==> op.WindowScrollLeftBy? || op.n == 0)
    ensures op.WindowScrollUpBy? || op.WindowScrollDownBy? ==> r.0 == 0 && (r.1 <= 0 <==> op.WindowScrollUpBy? || op.n == 0)
  {
    match op
    case WindowScrollBy(offset) => offset
    case WindowScrollLeftBy(n) => (-(n as int), 0)
    case WindowScrollRightBy(n) => (n, 0)
    case WindowScrollUpBy(n) => (0, -(n as int))
    case WindowScrollDownBy(n) => (0, n)
  }

  /**
   * The characters a `CursorDelete(count)` removes, as `(left, right)` of the
   * cursor: `-count` to the left when negative, `count` to the right when
   * positive.
   */
  function DeleteSpan(op: Operation): (r: (nat, nat))
    requires op.CursorDelete?
    ensures r.0 == 0 || r.1 == 0
    ensures r.1 - r.0 == op.count
  {
    if op.count < 0 then (-(op.count as int), 0) else (0, op.count)
  }
}
