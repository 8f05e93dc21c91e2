// The Redis list commands the history store issues (RPUSH, LRANGE, LTRIM),
// with Redis' index conventions: negative indexes count from the end and
// out-of-range indexes are clamped.

module RedisLists {

  function Min(a: int, b: int): int { if a <= b then a else b }
  function Max(a: int, b: int): int { if a >= b then a else b }

  /** The first index LRANGE and LTRIM use: negatives count from the end, then clamp at 0. */
  function StartIndex(n: nat, start: int): (s: nat)
  {
    if start < 0 then Max(n + start, 0) else start
  }

  /** The last index LRANGE and LTRIM use: negatives count from the end, then clamp at n - 1. */
  function StopIndex(n: nat, stop: int): (e: int)
    ensures e < n
  {
    if stop < 0 then n + stop else Min(stop, n - 1)
  }

  /** `LRANGE key start stop`: the elements from `start` to `stop`, both inclusive. */
  function LRange<T>(xs: seq<T>, start: int, stop: int): (r: seq<T>)
    ensures |r| <= |xs|
    ensures exists i, j :: 0 <= i <= j <= |xs| && r == xs[i..j]
  {
    var s := StartIndex(|xs|, start);
    var e := StopIndex(|xs|, stop);
    if s > e || s >= |xs| then
      assert xs[0..0] == [];
      []
    else xs[s..e + 1]
  }

  /** `LRANGE key 0 -1` is the whole list. */
  lemma LRangeAll<T>(xs: seq<T>)
    ensures LRange(xs, 0, -1) == xs
  {
    if xs != [] {
      assert xs[0..|xs|] == xs;
    }
  }

  /**
   * `LRANGE key -count -1`: for a positive count the last `count` elements
   * (or all, if there are fewer); for a count of 0 the WHOLE list, because
   * -0 is 0; for a negative count the list without its first `-count`
   * elements.
   */
  lemma LastElements<T>(xs: seq<T>, count: int)
    ensures count > 0 ==> LRange(xs, -count, -1) == xs[|xs| - Min(count, |xs|)..]
    ensures count == 0 ==> LRange(xs, -count, -1) == xs
    ensures count < 0 ==> LRange(xs, -count, -1) == xs[Min(-count, |xs|)..]
  {
    if count == 0 {
      LRangeAll(xs);
    }
  }

  /**
   * `LTRIM key start stop` keeps exactly what `LRANGE key start stop`
   * returns (and an empty result removes the key). `LTRIM key 0 k` keeps a
   * prefix: `k + 1` elements for k >= 0, all but the last `-k - 1` for k < 0.
   */
  lemma TrimFromStart<T>(xs: seq<T>, k: int)
    ensures k >= 0 ==> LRange(xs, 0, k) == xs[..Min(k + 1, |xs|)]
    ensures k < 0 ==> LRange(xs, 0, k) == xs[..Max(|xs| + k + 1, 0)]
  {
  }
}
