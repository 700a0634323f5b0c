/** Optional values, results that carry either a value or a reason for failing, and two functions on numbers. */
module Wrappers {

  datatype Option<+T> = None | Some(value: T) {
    /** The value, or what Go leaves in a variable that was never assigned. */
    function GetOr(default: T): T {
      if Some? then value else default
    }
  }

  datatype Result<+T> = Ok(value: T) | Err(reason: string)

  function Min(m: int, n: int): int {
    if m < n then m else n
  }

  function AtLeastZero(n: int): nat {
    if n > 0 then n else 0
  }
}
