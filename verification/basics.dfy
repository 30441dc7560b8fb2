/** Constants and helpers the other modules share. */
module Basics {

  const USIZE_MAX: nat := 0xFFFF_FFFF_FFFF_FFFF
  const LANES_PER_PAGE: nat := 64
  const PAGES_PER_GROUP: nat := 64
  const PREFETCH_LIMIT: nat := 64
  const STEAL_BATCH_LIMIT: nat := 8

  datatype Option<T> = None | Some(value: T)

  /** A lane's slot and the generation of its occupant. */
  datatype LaneKey = LaneKey(slot: nat, generation: nat)

  /** What a user of a channel holds to name one of its lanes. */
  datatype LaneId = LaneId(channel: nat, key: LaneKey)

  function Min(a: nat, b: nat): nat { if a < b then a else b }

  function Max(a: nat, b: nat): nat { if a < b then b else a }

  /** How many of `n` remaining values a steal moves besides the one it returns: half,
      rounded up, but at most seven. */
  function Transfer(n: nat): nat { Min((n + 1) / 2, STEAL_BATCH_LIMIT - 1) }

  /** How many leading values a stateful admission test accepts, and the state it
      is left in. The test is not called past the first value it rejects. */
  function Accepted<A, T>(s: seq<T>, admit: (A, T) -> (A, bool), a: A): (r: (nat, A))
    ensures r.0 <= |s|
  {
    if s == [] then (0, a)
    else
      var (next, ok) := admit(a, s[0]);
      if !ok then (0, next)
      else var (n, last) := Accepted(s[1..], admit, next); (n + 1, last)
  }
}
