/** Failure-carrying wrappers and the fixed-width integer ranges the program uses. */
module Prelude {

  datatype Option<+T> = None | Some(value: T) {
    function GetOr(default: T): T {
      match this
      case Some(v) => v
      case None => default
    }
  }

  /** A Rust `Result<T, E>`. */
  datatype Result<+T, +E> = Ok(value: T) | Err(error: E)

  /** Rust `u16`: the type of the pagination offset `start`. */
  type u16 = x: int | 0 <= x < 0x1_0000

  /** Rust `i32`: the type of a page-change direction. */
  type i32 = x: int | -0x8000_0000 <= x < 0x8000_0000

  const U16Max: int := 0xFFFF

  /** `u16::saturating_add`. */
  function SaturatingAdd(a: u16, b: u16): (r: u16)
    ensures a + b <= U16Max ==> r == a + b
    ensures a + b > U16Max ==> r == U16Max
  {
    if a + b <= U16Max then a + b else U16Max
  }
}
