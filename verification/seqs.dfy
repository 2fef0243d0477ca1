/** Generic facts about ordered lists: order-preserving filtering (JavaScript's
    `Array.prototype.filter`) and lists whose elements carry a numeric key. */
module Seqs {

  /** The elements of `s` that satisfy `keep`, in their original order. */
  function Filter<T>(s: seq<T>, keep: T -> bool): (r: seq<T>)
    ensures |r| <= |s|
    ensures forall i :: 0 <= i < |r| ==> r[i] in s && keep(r[i])
    ensures forall i :: 0 <= i < |s| && keep(s[i]) ==> s[i] in r
  {
    if |s| == 0 then []
    else if keep(s[0]) then [s[0]] + Filter(s[1..], keep)
    else Filter(s[1..], keep)
  }

  /** Filtering distributes over concatenation; with the one-element case this
      pins down the order of the result, not just its elements. */
  lemma {:induction false} FilterAppend<T>(a: seq<T>, b: seq<T>, keep: T -> bool)
    ensures Filter(a + b, keep) == Filter(a, keep) + Filter(b, keep)
  {
    if |a| == 0 {
      assert a + b == b;
    } else {
      assert (a + b)[0] == a[0];
      assert (a + b)[1..] == a[1..] + b;
      FilterAppend(a[1..], b, keep);
    }
  }

  /** A list none of whose elements is rejected comes back unchanged. */
  lemma {:induction false} FilterKeepsAll<T>(s: seq<T>, keep: T -> bool)
    requires forall i :: 0 <= i < |s| ==> keep(s[i])
    ensures Filter(s, keep) == s
  {
    if |s| > 0 {
      FilterKeepsAll(s[1..], keep);
    }
  }

  /** Filtering twice with the same test is filtering once. */
  lemma FilterIdempotent<T>(s: seq<T>, keep: T -> bool)
    ensures Filter(Filter(s, keep), keep) == Filter(s, keep)
  {
    var r := Filter(s, keep);
    FilterKeepsAll(r, keep);
  }

  /** Filtering with `p` and then with `q` is filtering once with their conjunction. */
  lemma {:induction false} FilterFilter<T>(s: seq<T>, p: T -> bool, q: T -> bool, pq: T -> bool)
    requires forall x :: pq(x) == (p(x) && q(x))
    ensures Filter(Filter(s, p), q) == Filter(s, pq)
  {
    if |s| > 0 {
      FilterFilter(s[1..], p, q, pq);
      if p(s[0]) {
        assert Filter(s, p) == [s[0]] + Filter(s[1..], p);
        FilterAppend([s[0]], Filter(s[1..], p), q);
        assert Filter([s[0]], q) == if q(s[0]) then [s[0]] else [];
      }
    }
  }

  /** The key of every element, in list order. */
  function Keys<T>(s: seq<T>, key: T -> int): (ks: seq<int>)
    ensures |ks| == |s|
    ensures forall i :: 0 <= i < |s| ==> ks[i] == key(s[i])
  {
    if |s| == 0 then [] else [key(s[0])] + Keys(s[1..], key)
  }

  /** No two positions of the list carry the same key. */
  predicate UniqueKeys<T>(s: seq<T>, key: T -> int) {
    forall i, j :: 0 <= i < j < |s| ==> key(s[i]) != key(s[j])
  }

  /** Keys strictly increase along the list (which implies they are unique). */
  predicate IncreasingKeys<T>(s: seq<T>, key: T -> int) {
    forall i, j :: 0 <= i < j < |s| ==> key(s[i]) < key(s[j])
  }

  /** The test that keeps an element unless its key is `k`. */
  function KeyDiffers<T>(key: T -> int, k: int): T -> bool {
    x => key(x) != k
  }

  /** The elements of `s` whose key differs from `k`, in their original order. */
  function RemoveKey<T>(s: seq<T>, key: T -> int, k: int): (r: seq<T>)
    ensures |r| <= |s|
    ensures forall i :: 0 <= i < |r| ==> r[i] in s && key(r[i]) != k
    ensures forall i :: 0 <= i < |s| && key(s[i]) != k ==> s[i] in r
    ensures k !in Keys(r, key)
  {
    Filter(s, KeyDiffers(key, k))
  }

  /** Removing a key that no element carries leaves the list unchanged. */
  lemma RemoveAbsentKey<T>(s: seq<T>, key: T -> int, k: int)
    requires k !in Keys(s, key)
    ensures RemoveKey(s, key, k) == s
  {
    forall i | 0 <= i < |s|
      ensures KeyDiffers(key, k)(s[i])
    {
      assert Keys(s, key)[i] == key(s[i]);
    }
    FilterKeepsAll(s, KeyDiffers(key, k));
  }

  /** Removing the same key twice is removing it once. */
  lemma RemoveKeyIdempotent<T>(s: seq<T>, key: T -> int, k: int)
    ensures RemoveKey(RemoveKey(s, key, k), key, k) == RemoveKey(s, key, k)
  {
    FilterIdempotent(s, KeyDiffers(key, k));
  }

  /** Order-preserving removal keeps keys unique. */
  lemma {:induction false} FilterKeepsUnique<T>(s: seq<T>, keep: T -> bool, key: T -> int)
    requires UniqueKeys(s, key)
    ensures UniqueKeys(Filter(s, keep), key)
  {
    if |s| > 0 {
      var t := s[1..];
      assert UniqueKeys(t, key) by {
        forall i, j | 0 <= i < j < |t|
          ensures key(t[i]) != key(t[j])
        {
          assert t[i] == s[i + 1] && t[j] == s[j + 1];
        }
      }
      FilterKeepsUnique(t, keep, key);
      if keep(s[0]) {
        var r := Filter(t, keep);
        forall m | 0 <= m < |r|
          ensures key(r[m]) != key(s[0])
        {
          assert r[m] in t;
          var j :| 0 <= j < |t| && t[j] == r[m];
          assert s[j + 1] == r[m];
        }
        var full := [s[0]] + r;
        forall i, j | 0 <= i < j < |full|
          ensures key(full[i]) != key(full[j])
        {
          if i == 0 {
            assert full[j] == r[j - 1];
          } else {
            assert full[i] == r[i - 1] && full[j] == r[j - 1];
          }
        }
      }
    }
  }

  /** Removing by key keeps keys unique. */
  lemma RemoveKeyKeepsUnique<T>(s: seq<T>, key: T -> int, k: int)
    requires UniqueKeys(s, key)
    ensures UniqueKeys(RemoveKey(s, key, k), key)
  {
    FilterKeepsUnique(s, KeyDiffers(key, k), key);
  }

  /** Appending an element whose key is not yet used keeps keys unique. */
  lemma AppendFreshKeepsUnique<T>(s: seq<T>, x: T, key: T -> int)
    requires UniqueKeys(s, key)
    requires key(x) !in Keys(s, key)
    ensures UniqueKeys(s + [x], key)
  {
    var t := s + [x];
    forall i, j | 0 <= i < j < |t|
      ensures key(t[i]) != key(t[j])
    {
      if j == |s| {
        assert Keys(s, key)[i] == key(s[i]);
      }
    }
  }

  /** Replacing an element by one with the same key leaves the keys as they were. */
  lemma UpdateKeepsKeys<T>(s: seq<T>, i: nat, x: T, key: T -> int)
    requires i < |s| && key(x) == key(s[i])
    ensures Keys(s[i := x], key) == Keys(s, key)
  {
  }

  /** `a` and `b` have the same length and agree everywhere except possibly at `i`. */
  predicate SameExceptAt<T(==)>(a: seq<T>, b: seq<T>, i: nat) {
    |a| == |b| && forall j :: 0 <= j < |a| && j != i ==> a[j] == b[j]
  }
}
