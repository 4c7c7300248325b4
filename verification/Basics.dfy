/** Small definitions that several parts share. */
module Basics {

  datatype Option<T> = None | Some(value: T)

  /** Conversion of a float to an int drops the fraction. */
  function Truncate(r: real): int {
    if r >= 0.0 then r.Floor else -((-r).Floor)
  }
}
