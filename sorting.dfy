/** A stable sort by an integer key. Both sorts of the core are stable:
    `Array.prototype.sort` (required to be stable since ECMAScript 2019) on the
    question layout, and Python's `list.sort` on the analytics rows. A
    descending sort is the ascending sort on the negated key. */
module Sorting {
  import opened Common

  /** Ascending by `key`. */
  ghost predicate SortedBy<T>(s: seq<T>, key: T -> int) {
    forall i, j :: 0 <= i < j < |s| ==> key(s[i]) <= key(s[j])
  }

  /** Selects the elements whose key is `k`; stability is stated through it. */
  function KeyIs<T>(key: T -> int, k: int): T -> bool {
    x => key(x) == k
  }

  /** Inserts `x` in front of the first element whose key is not smaller, so
      that `x` stays ahead of the elements with an equal key. */
  function Insert<T>(x: T, s: seq<T>, key: T -> int): (r: seq<T>)
    ensures |r| == |s| + 1
    ensures multiset(r) == multiset(s) + multiset{x}
    ensures r[0] == x || (s != [] && r[0] == s[0])
  {
    if s == [] || key(x) <= key(s[0]) then [x] + s
    else
      var rest := Insert(x, s[1..], key);
      assert s == [s[0]] + s[1..];
      [s[0]] + rest
  }

  /** Insertion sort, processing the list from its end. */
  function SortBy<T>(s: seq<T>, key: T -> int): (r: seq<T>)
    ensures |r| == |s|
    ensures multiset(r) == multiset(s)
  {
    if s == [] then []
    else
      assert s == [s[0]] + s[1..];
      Insert(s[0], SortBy(s[1..], key), key)
  }

  lemma {:induction false} InsertSorted<T>(x: T, s: seq<T>, key: T -> int)
    requires SortedBy(s, key)
    ensures SortedBy(Insert(x, s, key), key)
  {
    if s != [] && key(x) > key(s[0]) {
      InsertSorted(x, s[1..], key);
      var rest := Insert(x, s[1..], key);
      assert rest[0] == x || rest[0] == s[1];
      assert forall j :: 0 <= j < |rest| ==> key(s[0]) <= key(rest[j]) by {
        forall j | 0 <= j < |rest| ensures key(s[0]) <= key(rest[j]) {
          assert key(s[0]) <= key(rest[0]);
        }
      }
    }
  }

  /** The result of the sort is in ascending key order. */
  lemma {:induction false} SortBySorted<T>(s: seq<T>, key: T -> int)
    ensures SortedBy(SortBy(s, key), key)
  {
    if s != [] {
      SortBySorted(s[1..], key);
      InsertSorted(s[0], SortBy(s[1..], key), key);
    }
  }

  lemma {:induction false} InsertStable<T(!new)>(x: T, s: seq<T>, key: T -> int, k: int)
    ensures Filter(Insert(x, s, key), KeyIs(key, k)) == Filter([x] + s, KeyIs(key, k))
  {
    if s != [] && key(x) > key(s[0]) {
      InsertStable(x, s[1..], key, k);
      var rest := Insert(x, s[1..], key);
      assert ([s[0]] + rest)[1..] == rest;
      assert ([x] + s)[1..] == s;
      assert ([x] + s[1..])[1..] == s[1..];
      assert s == [s[0]] + s[1..];
    }
  }

  /** The sort is stable: the elements that share a key come out in the
      order in which they went in. */
  lemma {:induction false} SortByStable<T(!new)>(s: seq<T>, key: T -> int, k: int)
    ensures Filter(SortBy(s, key), KeyIs(key, k)) == Filter(s, KeyIs(key, k))
  {
    if s != [] {
      var rest := SortBy(s[1..], key);
      SortByStable(s[1..], key, k);
      InsertStable(s[0], rest, key, k);
      assert ([s[0]] + rest)[1..] == rest;
    }
  }

  /** Filtering a sorted list leaves it sorted. */
  lemma {:induction false} FilterSorted<T(!new)>(s: seq<T>, key: T -> int, keep: T -> bool)
    requires SortedBy(s, key)
    ensures SortedBy(Filter(s, keep), key)
  {
    if s != [] {
      FilterSorted(s[1..], key, keep);
      var rest := Filter(s[1..], keep);
      assert forall x :: x in rest ==> x in s[1..];
      assert forall j :: 0 <= j < |rest| ==> key(s[0]) <= key(rest[j]) by {
        forall j | 0 <= j < |rest| ensures key(s[0]) <= key(rest[j]) {
          assert rest[j] in s[1..];
        }
      }
    }
  }

  /** A list already in order is left as it is. */
  lemma {:induction false} SortByOfSorted<T>(s: seq<T>, key: T -> int)
    requires SortedBy(s, key)
    ensures SortBy(s, key) == s
  {
    if s != [] {
      assert SortedBy(s[1..], key);
      SortByOfSorted(s[1..], key);
      assert s == [s[0]] + s[1..];
    }
  }
}
