/**
  Generic facts about sequences and integer-valued maps that the dashboard's
  filter and aggregation modules share: duplicate-free lists, order-preserving
  subsequences, and the total of a map's entries taken over a list of keys.
*/
module Collections {

  /** No element of `s` occurs twice. */
  predicate Distinct<T(==)>(s: seq<T>) {
    |s| == 0 || (s[0] !in s[1..] && Distinct(s[1..]))
  }

  /** `a` is `b` with some elements removed and the rest left in their order. */
  predicate IsSubsequence<T(==)>(a: seq<T>, b: seq<T>)
    decreases |b|
  {
    if a == [] then true
    else if b == [] then false
    else (a[0] == b[0] && IsSubsequence(a[1..], b[1..])) || IsSubsequence(a, b[1..])
  }

  lemma {:induction false} SubsequenceTransitive<T>(a: seq<T>, b: seq<T>, c: seq<T>)
    requires IsSubsequence(a, b) && IsSubsequence(b, c)
    ensures IsSubsequence(a, c)
    decreases |c|
  {
    if a != [] {
      if b[0] == c[0] && IsSubsequence(b[1..], c[1..]) {
        if a[0] == b[0] && IsSubsequence(a[1..], b[1..]) {
          SubsequenceTransitive(a[1..], b[1..], c[1..]);
        } else {
          SubsequenceTransitive(a, b[1..], c[1..]);
        }
      } else {
        SubsequenceTransitive(a, b, c[1..]);
      }
    }
  }

  lemma {:induction false} SubsequenceLength<T>(a: seq<T>, b: seq<T>)
    requires IsSubsequence(a, b)
    ensures |a| <= |b|
    decreases |b|
  {
    if a != [] {
      if a[0] == b[0] && IsSubsequence(a[1..], b[1..]) {
        SubsequenceLength(a[1..], b[1..]);
      } else {
        SubsequenceLength(a, b[1..]);
      }
    }
  }

  /** The entry of `m` at `k`, reading a missing key as 0. */
  function Get<K>(m: map<K, int>, k: K): int {
    if k in m then m[k] else 0
  }

  /** The total of the entries of `m` at the keys listed in `keys`. */
  function SumAt<K>(m: map<K, int>, keys: seq<K>): int {
    if keys == [] then 0 else Get(m, keys[0]) + SumAt(m, keys[1..])
  }

  lemma {:induction false} SumAtEmpty<K>(keys: seq<K>)
    ensures SumAt(map[], keys) == 0
  {
    if keys != [] {
      SumAtEmpty(keys[1..]);
    }
  }

  /**
    Adding `v` to the entry at `k` adds `v` to the total over a duplicate-free
    key list exactly when `k` is listed.
  */
  lemma {:induction false} SumAtAdd<K>(m: map<K, int>, k: K, v: int, keys: seq<K>)
    requires Distinct(keys)
    ensures SumAt(m[k := Get(m, k) + v], keys) == SumAt(m, keys) + (if k in keys then v else 0)
  {
    if keys != [] {
      SumAtAdd(m, k, v, keys[1..]);
      assert k in keys <==> k == keys[0] || k in keys[1..];
    }
  }
}
