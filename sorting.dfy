/**
 * Ordering by a real-valued key, as LINQ's OrderBy / OrderByDescending and
 * Array.Sort with a key comparer are used by the nester: the fitness order of
 * a generation, the descending-area order of the first gene, the order in
 * which line segments are merged; and the selection of elements by their
 * positions, as the simplifiers and the clone filter keep some of their input.
 */
module Sorting {

  /** The elements at the given positions, in the order of the positions. */
  function Pick<T>(items: seq<T>, idx: seq<nat>): (r: seq<T>)
    requires forall k :: 0 <= k < |idx| ==> idx[k] < |items|
    ensures |r| == |idx| && forall k :: 0 <= k < |idx| ==> r[k] == items[idx[k]]
  {
    seq(|idx|, k requires 0 <= k < |idx| => items[idx[k]])
  }

  /** Positions that only go up. */
  predicate Increasing(idx: seq<nat>)
  {
    forall a, b :: 0 <= a < b < |idx| ==> idx[a] < idx[b]
  }

  /** Every element's key is at most the key of every later element. */
  predicate SortedBy<T>(s: seq<T>, key: T -> real)
  {
    forall i, j :: 0 <= i < j < |s| ==> key(s[i]) <= key(s[j])
  }

  /**
   * Inserts x in front of the first element whose key is at least x's key,
   * so that x comes before the elements it ties with.
   */
  function InsertBy<T>(x: T, s: seq<T>, key: T -> real): (r: seq<T>)
    ensures multiset(r) == multiset(s) + multiset{x}
    ensures |r| == |s| + 1
  {
    if |s| == 0 then [x]
    else if key(x) <= key(s[0]) then [x] + s
    else
      assert s == [s[0]] + s[1..];
      [s[0]] + InsertBy(x, s[1..], key)
  }

  /** Inserting into a sorted sequence keeps it sorted. */
  lemma {:induction false} InsertBySorted<T>(x: T, s: seq<T>, key: T -> real)
    requires SortedBy(s, key)
    ensures SortedBy(InsertBy(x, s, key), key)
  {
    if |s| > 0 && key(x) > key(s[0]) {
      var tail := InsertBy(x, s[1..], key);
      InsertBySorted(x, s[1..], key);
      forall k | 0 <= k < |tail|
        ensures key(s[0]) <= key(tail[k])
      {
        assert tail[k] in multiset(tail);
        if tail[k] != x {
          assert tail[k] in multiset(s[1..]);
          var j :| 0 <= j < |s[1..]| && s[1..][j] == tail[k];
          assert s[1 + j] == tail[k];
        }
      }
      assert InsertBy(x, s, key) == [s[0]] + tail;
    }
  }

  /** A stable insertion sort: the elements of s, ascending by key. */
  function SortBy<T>(s: seq<T>, key: T -> real): (r: seq<T>)
    ensures multiset(r) == multiset(s)
    ensures |r| == |s|
    ensures SortedBy(r, key)
  {
    if |s| == 0 then []
    else
      assert s == [s[0]] + s[1..];
      var rest := SortBy(s[1..], key);
      InsertBySorted(s[0], rest, key);
      InsertBy(s[0], rest, key)
  }

  /** Sorting by a key does not change which elements there are, only their order. */
  lemma SortedElements<T>(s: seq<T>, key: T -> real, k: nat)
    requires k < |s|
    ensures SortBy(s, key)[k] in s
  {
    var r := SortBy(s, key);
    assert r[k] in multiset(r);
  }
}
