/**
 The version stamp every replica compares, and the order the comparison defines.
 A UUID is its 128-bit big-endian value, so `<` on `Uuid` is the byte-wise order;
 the module RecoveryOrder relates it to the order of the hyphenated text.
 */
module Stamps {
  import opened Wrappers

  const UUID_LIMIT: nat := 0x1_0000_0000_0000_0000_0000_0000_0000_0000

  type Uuid = n: nat | n < UUID_LIMIT

  datatype Stamp = Stamp(clock: int, replica: Uuid, event: Uuid)

  /** `a` is strictly later than `b`: clock first, then replica, then event. */
  predicate Newer(a: Stamp, b: Stamp) {
    a.clock > b.clock
    || (a.clock == b.clock && a.replica > b.replica)
    || (a.clock == b.clock && a.replica == b.replica && a.event > b.event)
  }

  /** A write wins a field when the field has no stamp yet or an older one. */
  predicate Beats(s: Stamp, current: Option<Stamp>) {
    current.None? || Newer(s, current.value)
  }

  /** `now` carries a stamp at least as late as `before`. */
  predicate NotBehind(now: Option<Stamp>, before: Option<Stamp>) {
    before.Some? ==> now.Some? && (now == before || Newer(now.value, before.value))
  }

  function Lookup<K, V>(m: map<K, V>, k: K): Option<V> {
    if k in m then Some(m[k]) else None
  }
}
