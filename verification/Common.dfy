/** Datatypes and order helpers shared by every module. */
module Common {

  datatype Option<+T> = None | Some(value: T)

  datatype Result<+T, +E> = Ok(value: T) | Err(error: E)

  /** The two-argument maximum: the second argument wins only when strictly greater. */
  function MaxReal(a: real, b: real): real {
    if b > a then b else a
  }

  function AbsReal(x: real): real {
    if x < 0.0 then -x else x
  }

  function MaxInt(a: int, b: int): int {
    if b > a then b else a
  }

  function MinInt(a: int, b: int): int {
    if b < a then b else a
  }
}
