/**
 * Ordering by a date key, as `sorted { $0.date > $1.date }` and a
 * CoreData sort descriptor `date, ascending: false` order records.
 * The sort is a stable insertion sort: records with equal keys keep
 * their relative order.
 */
module Sequences {

  /** Newest first: no element has a smaller key than a later one. */
  ghost predicate SortedDesc<T>(s: seq<T>, key: T -> int) {
    forall i, j :: 0 <= i < j < |s| ==> key(s[i]) >= key(s[j])
  }

  /** Strictly increasing keys, as records appended under a clock that always advances. */
  ghost predicate StrictlyAscending<T>(s: seq<T>, key: T -> int) {
    forall i, j :: 0 <= i < j < |s| ==> key(s[i]) < key(s[j])
  }

  function Insert<T>(x: T, s: seq<T>, key: T -> int): (r: seq<T>)
    requires SortedDesc(s, key)
    ensures SortedDesc(r, key)
    ensures multiset(r) == multiset(s) + multiset{x}
    ensures |r| == |s| + 1
  {
    if s == [] || key(x) >= key(s[0]) then
      [x] + s
    else
      var rest := Insert(x, s[1..], key);
      assert s == [s[0]] + s[1..];
      InsertSorted(s[0], rest, key, x, s[1..]);
      [s[0]] + rest
  }

  lemma InsertSorted<T>(h: T, rest: seq<T>, key: T -> int, x: T, tail: seq<T>)
    requires SortedDesc(rest, key)
    requires multiset(rest) == multiset(tail) + multiset{x}
    requires key(x) <= key(h)
    requires forall y :: y in tail ==> key(y) <= key(h)
    ensures SortedDesc([h] + rest, key)
  {
    forall y | y in rest ensures key(y) <= key(h) {
      assert y in multiset(rest);
    }
    PrependSorted(h, rest, key);
  }

  /** A record no older than everything in a newest-first list can go in front of it. */
  lemma PrependSorted<T>(h: T, rest: seq<T>, key: T -> int)
    requires SortedDesc(rest, key)
    requires forall y :: y in rest ==> key(y) <= key(h)
    ensures SortedDesc([h] + rest, key)
  {
    var r := [h] + rest;
    forall i, j | 0 <= i < j < |r| ensures key(r[i]) >= key(r[j]) {
      if i == 0 {
        assert r[j] in rest;
      } else {
        assert r[i] == rest[i - 1] && r[j] == rest[j - 1];
      }
    }
  }

  /** The first record of a newest-first list is at least as new as every record in it. */
  lemma HeadIsNewest<T>(s: seq<T>, key: T -> int)
    requires SortedDesc(s, key) && s != []
    ensures forall x :: x in s ==> key(x) <= key(s[0])
  {
    forall x | x in s ensures key(x) <= key(s[0]) {
      var j :| 0 <= j < |s| && s[j] == x;
      if j > 0 {
        assert key(s[0]) >= key(s[j]);
      }
    }
  }

  /** The records of s, newest first; a permutation of s. */
  function SortDesc<T>(s: seq<T>, key: T -> int): (r: seq<T>)
    ensures SortedDesc(r, key)
    ensures multiset(r) == multiset(s)
    ensures |r| == |s|
  {
    if s == [] then []
    else
      assert s == [s[0]] + s[1..];
      Insert(s[0], SortDesc(s[1..], key), key)
  }

  function Reverse<T>(s: seq<T>): (r: seq<T>)
    ensures |r| == |s|
  {
    if s == [] then [] else Reverse(s[1..]) + [s[0]]
  }

  lemma {:induction false} ReverseAt<T>(s: seq<T>, i: nat)
    requires i < |s|
    ensures Reverse(s)[i] == s[|s| - 1 - i]
  {
    if i < |s| - 1 {
      ReverseAt(s[1..], i);
    }
  }

  lemma {:induction false} InsertOlder<T>(x: T, s: seq<T>, key: T -> int)
    requires SortedDesc(s, key)
    requires forall y :: y in s ==> key(y) > key(x)
    ensures Insert(x, s, key) == s + [x]
  {
    if s != [] {
      InsertOlder(x, s[1..], key);
    }
  }

  /**
   * When every record is strictly newer than the ones before it, newest
   * first is exactly the reverse of insertion order.
   */
  lemma {:induction false} SortDescOfAscending<T>(s: seq<T>, key: T -> int)
    requires StrictlyAscending(s, key)
    ensures SortDesc(s, key) == Reverse(s)
  {
    if s != [] {
      SortDescOfAscending(s[1..], key);
      var r := SortDesc(s[1..], key);
      forall y | y in r ensures key(y) > key(s[0]) {
        assert y in multiset(r);
        assert y in s[1..];
      }
      InsertOlder(s[0], r, key);
    }
  }
}
