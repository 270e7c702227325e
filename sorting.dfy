/** `[...xs].sort((a, b) => key(a) - key(b))`: JavaScript's sort is stable, so with a comparator
    that subtracts integer keys the result is the unique stable ascending order by `key`. It is
    modelled here as a stable insertion sort; a descending sort uses the negated key. */
module Sorting {
  import opened Seqs

  predicate SortedBy<T>(s: seq<T>, key: T -> int)
  {
    forall i, j :: 0 <= i < j < |s| ==> key(s[i]) <= key(s[j])
  }

  /** Inserts `x` before the first element whose key is not smaller, so that `x` stays ahead of
      the elements with an equal key (stability). */
  function Insert<T>(x: T, s: seq<T>, key: T -> int): (r: seq<T>)
    requires SortedBy(s, key)
    ensures SortedBy(r, key)
    ensures multiset(r) == multiset(s) + multiset{x}
    ensures |r| == |s| + 1
    ensures forall e :: e in r ==> e == x || e in s
  {
    if s == [] then [x]
    else if key(x) <= key(s[0]) then [x] + s
    else
      var t := Insert(x, s[1..], key);
      assert s == [s[0]] + s[1..];
      assert forall e :: e in t ==> key(s[0]) <= key(e) by {
        forall e | e in t ensures key(s[0]) <= key(e) {
          if e != x {
            var k :| 0 <= k < |s[1..]| && s[1..][k] == e;
            assert s[k + 1] == e;
          }
        }
      }
      [s[0]] + t
  }

  function SortBy<T>(s: seq<T>, key: T -> int): (r: seq<T>)
    ensures SortedBy(r, key)
    ensures multiset(r) == multiset(s)
    ensures |r| == |s|
  {
    if s == [] then []
    else
      assert s == [s[0]] + s[1..];
      Insert(s[0], SortBy(s[1..], key), key)
  }

  /** A comparator that always answers 0 (every key equal) leaves the order untouched. */
  lemma {:induction false} SortByConstantKey<T>(s: seq<T>, key: T -> int)
    requires forall i, j :: 0 <= i < |s| && 0 <= j < |s| ==> key(s[i]) == key(s[j])
    ensures SortBy(s, key) == s
  {
    if s != [] {
      SortByConstantKey(s[1..], key);
      assert SortBy(s[1..], key) == s[1..];
    }
  }

  /** Sorting only reorders: membership is unchanged. */
  lemma SortByMembers<T>(s: seq<T>, key: T -> int, x: T)
    ensures x in SortBy(s, key) <==> x in s
  {
    var r := SortBy(s, key);
    assert x in r <==> x in multiset(r);
    assert x in s <==> x in multiset(s);
  }

  /** Filtering a sorted list leaves it sorted. */
  lemma {:induction false} FilterSorted<T(!new)>(s: seq<T>, p: T -> bool, key: T -> int)
    requires SortedBy(s, key)
    ensures SortedBy(Filter(s, p), key)
  {
    if s != [] {
      FilterSorted(s[1..], p, key);
      var t := Filter(s[1..], p);
      if p(s[0]) {
        forall j | 0 <= j < |t| ensures key(s[0]) <= key(t[j]) {
          assert t[j] in s[1..];
        }
        assert Filter(s, p) == [s[0]] + t;
      }
    }
  }
}
