/** What every part uses: optional values, results, and the protocol's constants. */
module Prelude {

  /** Peers that hold a record, by the ant protocol. */
  const CLOSE_GROUP_SIZE: nat := 7
  const CLOSE_GROUP_MAJORITY: nat := 4

  const U64_MAX: nat := 0xFFFF_FFFF_FFFF_FFFF

  datatype Option<T> = None | Some(value: T)

  datatype Result<T, X> = Ok(value: T) | Err(error: X)

  function Min(a: nat, b: nat): nat { if a < b then a else b }

  function Max(a: nat, b: nat): nat { if a < b then b else a }

  /** The positions of a list of `n`. */
  function Positions(n: nat): (s: seq<nat>)
    ensures |s| == n && forall i :: 0 <= i < n ==> s[i] == i
  {
    seq(n, i requires 0 <= i < n => i)
  }
}
