/** Option, Result and the machine integer ranges the sources use. */
module Prelude {

  datatype Option<+T> = None | Some(value: T)

  datatype Result<+T, +E> = Ok(value: T) | Err(error: E)

  // Subset types: assigning an out-of-range value is a verification error,
  // so an arithmetic overflow of the source shows up as a failed proof.
  type u8 = n: int | 0 <= n < 0x100
  type u16 = n: int | 0 <= n < 0x1_0000
  type u32 = n: int | 0 <= n < 0x1_0000_0000
  type u64 = n: int | 0 <= n < 0x1_0000_0000_0000_0000

  const U64_LIMIT: nat := 0x1_0000_0000_0000_0000

  /** Unsigned `saturating_sub`. */
  function SaturatingSub(a: nat, b: nat): (r: nat)
    ensures b <= a ==> r + b == a
    ensures a <= b ==> r == 0
  {
    if b <= a then a - b else 0
  }
}
