// ORDER BY <column> ASC on a query result: a stable insertion sort by an integer key.

module Sorting {

  predicate SortedBy<T>(s: seq<T>, key: T -> int) {
    forall i, j :: 0 <= i < j < |s| ==> key(s[i]) <= key(s[j])
  }

  predicate StrictlySortedBy<T>(s: seq<T>, key: T -> int) {
    forall i, j :: 0 <= i < j < |s| ==> key(s[i]) < key(s[j])
  }

  /** No two positions of s carry the same key. */
  predicate DistinctKeys<T>(s: seq<T>, key: T -> int) {
    forall i, j :: 0 <= i < j < |s| ==> key(s[i]) != key(s[j])
  }

  /** Where x goes in a sorted s: after every element with a smaller key. */
  function InsertPosition<T>(x: T, s: seq<T>, key: T -> int): (p: nat)
    requires SortedBy(s, key)
    ensures p <= |s|
    ensures forall i :: 0 <= i < p ==> key(s[i]) < key(x)
    ensures forall i :: p <= i < |s| ==> key(x) <= key(s[i])
  {
    if s == [] || key(x) <= key(s[0]) then 0
    else 1 + InsertPosition(x, s[1..], key)
  }

  /** x placed into s at its insertion position. */
  function Insert<T>(x: T, s: seq<T>, key: T -> int): (r: seq<T>)
    requires SortedBy(s, key)
    ensures |r| == |s| + 1
    ensures multiset(r) == multiset(s) + multiset{x}
  {
    var p := InsertPosition(x, s, key);
    assert s == s[..p] + s[p..];
    s[..p] + [x] + s[p..]
  }

  lemma InsertAt<T>(x: T, s: seq<T>, key: T -> int, i: nat)
    requires SortedBy(s, key) && i <= |s|
    ensures var p, r := InsertPosition(x, s, key), Insert(x, s, key);
      r[i] == if i < p then s[i] else if i == p then x else s[i - 1]
  {
  }

  lemma InsertKeepsOrder<T>(x: T, s: seq<T>, key: T -> int)
    requires SortedBy(s, key)
    ensures SortedBy(Insert(x, s, key), key)
  {
    var p, r := InsertPosition(x, s, key), Insert(x, s, key);
    forall i, j | 0 <= i < j < |r| ensures key(r[i]) <= key(r[j]) {
      InsertAt(x, s, key, i);
      InsertAt(x, s, key, j);
    }
  }

  lemma InsertKeepsKeysDistinct<T>(x: T, s: seq<T>, key: T -> int)
    requires SortedBy(s, key) && DistinctKeys(s, key)
    requires forall k :: 0 <= k < |s| ==> key(s[k]) != key(x)
    ensures DistinctKeys(Insert(x, s, key), key)
  {
    var p, r := InsertPosition(x, s, key), Insert(x, s, key);
    forall i, j | 0 <= i < j < |r| ensures key(r[i]) != key(r[j]) {
      InsertAt(x, s, key, i);
      InsertAt(x, s, key, j);
    }
  }

  /** The rows of s ordered by ascending key; rows with equal keys keep their order. */
  function SortBy<T>(s: seq<T>, key: T -> int): (r: seq<T>)
    ensures SortedBy(r, key)
    ensures multiset(r) == multiset(s)
    ensures DistinctKeys(s, key) ==> DistinctKeys(r, key)
  {
    if s == [] then []
    else
      var rest := SortBy(s[1..], key);
      assert s == [s[0]] + s[1..];
      InsertKeepsOrder(s[0], rest, key);
      if DistinctKeys(s, key) then
        assert forall k :: 0 <= k < |rest| ==> key(rest[k]) != key(s[0]) by {
          forall k | 0 <= k < |rest| ensures key(rest[k]) != key(s[0]) {
            assert rest[k] in multiset(s[1..]);
            var m :| 0 <= m < |s[1..]| && s[1..][m] == rest[k];
            assert s[m + 1] == rest[k];
          }
        }
        InsertKeepsKeysDistinct(s[0], rest, key);
        Insert(s[0], rest, key)
      else
        Insert(s[0], rest, key)
  }

  /** A sorted list comes back unchanged: the sort is stable. */
  lemma {:induction false} SortBySortedIsIdentity<T>(s: seq<T>, key: T -> int)
    requires SortedBy(s, key)
    ensures SortBy(s, key) == s
  {
    if s != [] {
      SortBySortedIsIdentity(s[1..], key);
      assert InsertPosition(s[0], s[1..], key) == 0;
    }
  }

  lemma SortedDistinctIsStrict<T>(s: seq<T>, key: T -> int)
    requires SortedBy(s, key) && DistinctKeys(s, key)
    ensures StrictlySortedBy(s, key)
  {
  }
}
