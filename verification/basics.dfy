/** Small value types shared by the terminal and map models: an optional value
    (Go's nil pointer / nil interface) and Go's 64-bit `int` with its
    two's-complement wrap-around. */
module Basics {

  /** The conventional Some/None datatype, standing in for a Go value that may be nil. */
  datatype Option<+T> = None | Some(value: T)

  /** Looks a key up in a map the way Go's comma-ok lookup does. */
  function Get<K, V>(m: map<K, V>, k: K): (r: Option<V>)
    ensures r.Some? <==> k in m
    ensures r.Some? ==> r.value == m[k]
  {
    if k in m then Some(m[k]) else None
  }

  /** Go's `int` on a 64-bit platform. */
  type Int64 = i: int | -0x8000_0000_0000_0000 <= i < 0x8000_0000_0000_0000

  const MinInt64: Int64 := -0x8000_0000_0000_0000
  const MaxInt64: Int64 := 0x7fff_ffff_ffff_ffff
  const TwoTo64: int := 0x1_0000_0000_0000_0000

  /** The unique Int64 congruent to `v` modulo 2^64: what a Go `int`
      holds after an arithmetic result `v` has wrapped around. */
  function Wrap64(v: int): (r: Int64)
    ensures (r - v) % TwoTo64 == 0
    ensures MinInt64 <= v <= MaxInt64 ==> r == v
  {
    (v - MinInt64) % TwoTo64 + MinInt64
  }

  /** Go's `x++` on an `int`: the largest value steps to the smallest. */
  function Inc64(c: Int64): (r: Int64)
    ensures r == Wrap64(c + 1)
  {
    if c == MaxInt64 then MinInt64 else c + 1
  }

  /** Incrementing a wrapped value is the same as wrapping the incremented value. */
  lemma Wrap64Succ(v: int)
    ensures Inc64(Wrap64(v)) == Wrap64(v + 1)
  {
  }
}
