/**
 * Python's `collections.Counter` as the bot uses it: a dictionary from item name to
 * count in which a missing key reads as 0 and `c[k] += d` inserts `k` when it is missing.
 * `keys` records insertion order, which is the order a dictionary is listed in.
 */
module Counters {

  datatype Counter = Counter(keys: seq<string>, counts: map<string, int>)

  /** `keys` lists every key of `counts` exactly once. */
  ghost predicate Valid(c: Counter) {
    && (forall i, j :: 0 <= i < j < |c.keys| ==> c.keys[i] != c.keys[j])
    && (forall k :: k in c.counts <==> k in c.keys)
  }

  /** `Counter()`. */
  const Empty: Counter := Counter([], map[])

  /** `c[k]` and `c.get(k, 0)`: the count, 0 for a missing key. */
  function Get(c: Counter, k: string): int {
    if k in c.counts then c.counts[k] else 0
  }

  /** `c[k] += d`: `k` gains `d`, every other count stays, and `k` becomes a key. */
  function Add(c: Counter, k: string, d: int): (r: Counter)
    ensures Get(r, k) == Get(c, k) + d
    ensures forall j :: j != k ==> Get(r, j) == Get(c, j)
  {
    Counter(if k in c.counts then c.keys else c.keys + [k], c.counts[k := Get(c, k) + d])
  }

  /** `c[k] += d` makes `k` a key, appended to the listing order when it is new. */
  lemma AddKeys(c: Counter, k: string, d: int)
    ensures Add(c, k, d).counts.Keys == c.counts.Keys + {k}
    ensures k in c.counts ==> Add(c, k, d).keys == c.keys
    ensures k !in c.counts ==> Add(c, k, d).keys == c.keys + [k]
  {
  }

  /** Adding to a valid counter keeps every key listed once. */
  lemma AddValid(c: Counter, k: string, d: int)
    requires Valid(c)
    ensures Valid(Add(c, k, d))
  {
  }

  lemma EmptyValid()
    ensures Valid(Empty)
    ensures forall k :: Get(Empty, k) == 0
  {
  }

  /** A counter is falsy in Python exactly when it has no keys, whichever view is used. */
  lemma NoKeysIffEmpty(c: Counter)
    requires Valid(c)
    ensures |c.keys| == 0 <==> c.counts == map[]
  {
    if |c.keys| > 0 {
      assert c.keys[0] in c.counts;
    }
  }
}
