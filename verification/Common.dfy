/** Result types and numeric helpers shared by every module. */
module Common {

  datatype Option<+T> = None | Some(value: T)

  datatype Result<+T, +E> = Ok(value: T) | Err(error: E)

  /** A JavaScript number as the option checks see it: NaN and both infinities fall under NotFinite. */
  datatype Number = Finite(value: real) | NotFinite

  /** The one exception type the constructors and option checks throw. */
  datatype RangeError = RangeError(option: string)

  /** An option left out takes its default. */
  function OrDefault(option: Option<Number>, default: real): Number {
    if option.Some? then option.value else Finite(default)
  }

  /** How a promise settles. */
  datatype Outcome<+T> = Resolved(value: T) | Rejected(error: string)

  function Min(a: real, b: real): real {
    if a <= b then a else b
  }

  function Max(a: int, b: int): int {
    if a >= b then a else b
  }

  /** Math.ceil: the least integer that is not below `x`. */
  function Ceil(x: real): (c: int)
    ensures (c - 1) as real < x <= c as real
  {
    -((-x).Floor)
  }
}
