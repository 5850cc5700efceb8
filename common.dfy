/** Small building blocks shared by the other modules. */
module Common {
  /** An optional value (`Option<T>`). */
  datatype Option<T> = None | Some(value: T)
  {
    /** `unwrap_or(default)`. */
    function UnwrapOr(default: T): (r: T)
      ensures Some? ==> r == value
      ensures None? ==> r == default
    {
      match this
      case Some(v) => v
      case None => default
    }
  }

  /** `n` copies of `x` (`std::iter::repeat_n`). */
  function Repeat<T>(x: T, n: nat): (r: seq<T>)
    ensures |r| == n
    ensures forall i :: 0 <= i < n ==> r[i] == x
  {
    seq(n, _ => x)
  }
}
