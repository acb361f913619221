/** Small shared datatypes and the map counters both services use. */
module Common {

  type Byte = x: int | 0 <= x < 256

  datatype Option<+T> = None | Some(value: T)

  /** `saturating_sub(1)`. */
  function SatDec(n: nat): (r: nat)
  {
    if n == 0 then 0 else n - 1
  }

  /** `counts.get(key).unwrap_or(0)`. */
  function Lookup<K>(counts: map<K, nat>, key: K): (n: nat)
  {
    if key in counts then counts[key] else 0
  }

  /** `*counts.entry(key).or_default() += 1`. */
  function Increment<K>(counts: map<K, nat>, key: K): (r: map<K, nat>)
  {
    counts[key := Lookup(counts, key) + 1]
  }

  /** Decrement a counter and drop the entry when it reaches zero. */
  function Decrement<K>(counts: map<K, nat>, key: K): (r: map<K, nat>)
  {
    if key !in counts then counts
    else if SatDec(counts[key]) == 0 then counts - {key}
    else counts[key := SatDec(counts[key])]
  }

  /** No two positions of a sequence hold the same value. */
  ghost predicate Distinct<T(!new)>(xs: seq<T>) {
    forall i, j :: 0 <= i < j < |xs| ==> xs[i] != xs[j]
  }
}
