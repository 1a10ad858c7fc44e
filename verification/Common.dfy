/** Small shared vocabulary: optional values, outcomes, and the saturating
    subtraction that the source uses for every time difference. */
module Common {

  datatype Option<+T> = None | Some(value: T)

  datatype Outcome<+T, +E> = Ok(value: T) | Err(error: E)

  /** `u64::saturating_sub`. */
  function SatSub(a: nat, b: nat): (r: nat) {
    if a >= b then a - b else 0
  }

  function Max(a: nat, b: nat): nat {
    if a >= b then a else b
  }

  function Min(a: nat, b: nat): nat {
    if a <= b then a else b
  }
}
