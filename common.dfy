/** Small shared vocabulary: an optional value. */
module Common {

  /** A value that may be absent (SQL NULL, a missing query row, a missing JSON key). */
  datatype Option<+T> = None | Some(value: T)

  /** Python's `max(0, x)` on a real amount. */
  function ClampAtZero(x: real): (r: real)
    ensures r >= 0.0
    ensures r >= x
    ensures r == x || r == 0.0
  {
    if 0.0 >= x then 0.0 else x
  }
}
