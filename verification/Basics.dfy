/** Small vocabulary shared by every module: optional values, 64-bit words and sequences seen as enumerations. */
module Basics {

  datatype Option<+T> = None | Some(value: T)

  const TWO_64 := 0x1_0000_0000_0000_0000
  const TWO_63 := 0x8000_0000_0000_0000
  const TWO_32 := 0x1_0000_0000

  const SECOND := 1_000_000_000  // durations are in nanoseconds

  type uint64 = x: int | 0 <= x < TWO_64
  type int64 = x: int | -TWO_63 <= x < TWO_63

  /** `atomic.Uint64.Add(1)`: the counter wraps at 2^64. */
  function Increment(x: uint64): (y: uint64)
  {
    if x == TWO_64 - 1 then 0 else x + 1
  }

  ghost predicate Distinct<T(!new)>(s: seq<T>) {
    forall i, j :: 0 <= i < j < |s| ==> s[i] != s[j]
  }

  /** s lists every element of `all` exactly once. The order is free: this is how a loop over a Go map may run. */
  ghost predicate Enumerates<T(!new)>(s: seq<T>, all: set<T>) {
    && Distinct(s)
    && (forall x :: x in s <==> x in all)
  }

  /** The last n elements of s, or all of s when it is shorter. */
  function LastN<T>(s: seq<T>, n: nat): seq<T> {
    if |s| <= n then s else s[|s| - n..]
  }
}
