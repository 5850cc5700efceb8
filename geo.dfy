/** Points and rectangles, as the `geo` crate has them. */
module Geo {
  import opened Numeric

  /** A point with `isize` coordinates. */
  datatype IPos = IPos(x: int, y: int)

  /** An `IRect`: corners `min` and `max`, with `min <= max` on both axes once built by `NewIRect`. */
  datatype IRect = IRect(min: IPos, max: IPos)

  /**
   * `Rect::new(c1, c2)`: the corners are re-ordered so that `min` is the smaller
   * coordinate on each axis and `max` the larger.
   */
  function NewIRect(c1: IPos, c2: IPos): (r: IRect)
    ensures r.min.x <= r.max.x && r.min.y <= r.max.y
    ensures {r.min.x, r.max.x} == {c1.x, c2.x} && {r.min.y, r.max.y} == {c1.y, c2.y}
  {
    IRect(IPos(Min(c1.x, c2.x), Min(c1.y, c2.y)), IPos(Max(c1.x, c2.x), Max(c1.y, c2.y)))
  }

  function IWidth(r: IRect): int { r.max.x - r.min.x }
  function IHeight(r: IRect): int { r.max.y - r.min.y }

  datatype Rect16 = Rect16(minX: u16, minY: u16, maxX: u16, maxY: u16)

  /** A `U16Rect`: terminal-cell coordinates, `min <= max` on both axes. */
  type U16Rect = r: Rect16 | r.minX <= r.maxX && r.minY <= r.maxY witness Rect16(0, 0, 0, 0)

  function Width(r: U16Rect): nat { r.maxX - r.minX }
  function Height(r: U16Rect): nat { r.maxY - r.minY }

  /** `Rect::new` over `u16` corners. */
  function NewU16Rect(x1: u16, y1: u16, x2: u16, y2: u16): (r: U16Rect)
    ensures {r.minX, r.maxX} == {x1, x2} && {r.minY, r.maxY} == {y1, y2}
  {
    Rect16(Min(x1, x2), Min(y1, y2), Max(x1, x2), Max(y1, y2))
  }

  /** `geo_rect_as!(r, u16)`: every coordinate cast with `as u16`, then the corners re-ordered. */
  function AsU16Rect(r: IRect): (u: U16Rect)
    ensures {u.minX, u.maxX} == {AsU16(r.min.x), AsU16(r.max.x)}
    ensures {u.minY, u.maxY} == {AsU16(r.min.y), AsU16(r.max.y)}
    ensures 0 <= r.min.x && 0 <= r.min.y && r.max.x < U16_LIMIT && r.max.y < U16_LIMIT && r.min.x <= r.max.x && r.min.y <= r.max.y
            ==> u == Rect16(r.min.x, r.min.y, r.max.x, r.max.y)
  {
    NewU16Rect(AsU16(r.min.x), AsU16(r.min.y), AsU16(r.max.x), AsU16(r.max.y))
  }

  function Clamp(v: int, lo: int, hi: int): int
    requires lo <= hi
  {
    if v < lo then lo else if hi < v then hi else v
  }
}
