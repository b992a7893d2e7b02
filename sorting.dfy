// JavaScript's `Array.prototype.sort` with a numeric comparator `(a, b) => key(a) - key(b)`:
// a stable sort, modelled as insertion sort on an integer key.

module Sorting {

  /** Keys never decrease from one element to the next. */
  predicate SortedBy<T>(s: seq<T>, key: T -> int)
  {
    forall i :: 0 <= i < |s| - 1 ==> key(s[i]) <= key(s[i + 1])
  }

  /** Stable insertion: `x` goes after every element whose key is no greater than its own. */
  function InsertBy<T>(s: seq<T>, x: T, key: T -> int): (r: seq<T>)
    ensures |r| == |s| + 1
  {
    if s == [] then [x]
    else if key(s[|s| - 1]) <= key(x) then s + [x]
    else InsertBy(s[..|s| - 1], x, key) + [s[|s| - 1]]
  }

  lemma {:induction false} InsertByElements<T>(s: seq<T>, x: T, key: T -> int)
    ensures multiset(InsertBy(s, x, key)) == multiset(s) + multiset{x}
  {
    if s != [] && key(s[|s| - 1]) > key(x) {
      var prev := s[..|s| - 1];
      assert s == prev + [s[|s| - 1]];
      InsertByElements(prev, x, key);
    }
  }

  lemma {:induction false} InsertBySorted<T>(s: seq<T>, x: T, key: T -> int)
    requires SortedBy(s, key)
    ensures var r := InsertBy(s, x, key); SortedBy(r, key)
    ensures var r := InsertBy(s, x, key); r[|r| - 1] == x || (s != [] && r[|r| - 1] == s[|s| - 1])
  {
    if s != [] && key(s[|s| - 1]) > key(x) {
      var prev := s[..|s| - 1];
      InsertBySorted(prev, x, key);
      var ins := InsertBy(prev, x, key);
      var r := ins + [s[|s| - 1]];
      assert key(ins[|ins| - 1]) <= key(s[|s| - 1]);
      assert forall i :: 0 <= i < |ins| ==> r[i] == ins[i];
    }
  }

  /** In a key-ordered sequence, any earlier element's key is at most any later one's. */
  lemma {:induction false} SortedByApart<T>(s: seq<T>, key: T -> int, i: int, j: int)
    requires SortedBy(s, key) && 0 <= i <= j < |s|
    ensures key(s[i]) <= key(s[j])
    decreases j - i
  {
    if i < j {
      SortedByApart(s, key, i + 1, j);
    }
  }

  function SortBy<T>(s: seq<T>, key: T -> int): (r: seq<T>)
    ensures |r| == |s|
  {
    if s == [] then [] else InsertBy(SortBy(s[..|s| - 1], key), s[|s| - 1], key)
  }

  /** The sort yields a rearrangement of its input whose keys never decrease. */
  lemma {:induction false} SortByProperties<T>(s: seq<T>, key: T -> int)
    ensures var r := SortBy(s, key); multiset(r) == multiset(s) && SortedBy(r, key)
  {
    if s != [] {
      var prev := s[..|s| - 1];
      assert s == prev + [s[|s| - 1]];
      SortByProperties(prev, key);
      InsertByElements(SortBy(prev, key), s[|s| - 1], key);
      InsertBySorted(SortBy(prev, key), s[|s| - 1], key);
    }
  }

  /** The sort keeps exactly the elements of its input. */
  lemma SortByMembers<T>(s: seq<T>, key: T -> int)
    ensures var r := SortBy(s, key); forall i :: 0 <= i < |r| ==> r[i] in s
    ensures var r := SortBy(s, key); forall x :: x in s ==> x in r
  {
    var r := SortBy(s, key);
    SortByProperties(s, key);
    assert forall i :: 0 <= i < |r| ==> r[i] in multiset(s);
    assert forall x :: x in s ==> x in multiset(r);
  }

  /** Sorting a sequence that is already in key order changes nothing (the sort is stable). */
  lemma {:induction false} SortBySortedIdentity<T>(s: seq<T>, key: T -> int)
    requires SortedBy(s, key)
    ensures SortBy(s, key) == s
  {
    if s != [] {
      var prev := s[..|s| - 1];
      assert SortedBy(prev, key);
      SortBySortedIdentity(prev, key);
      if |prev| > 0 {
        assert key(prev[|prev| - 1]) <= key(s[|s| - 1]);
      }
      assert prev + [s[|s| - 1]] == s;
    }
  }

  /** The elements whose key is `k`, in their order in `s`. */
  function WithKey<T>(s: seq<T>, key: T -> int, k: int): (r: seq<T>)
    ensures |r| <= |s|
    ensures forall i :: 0 <= i < |r| ==> r[i] in s && key(r[i]) == k
  {
    if s == [] then []
    else WithKey(s[..|s| - 1], key, k) + (if key(s[|s| - 1]) == k then [s[|s| - 1]] else [])
  }

  lemma WithKeySnoc<T>(s: seq<T>, x: T, key: T -> int, k: int)
    ensures WithKey(s + [x], key, k) == WithKey(s, key, k) + (if key(x) == k then [x] else [])
  {
    assert (s + [x])[..|s|] == s;
  }

  /** Insertion adds `x` behind every element of its own key: the other keys' runs are untouched. */
  lemma {:induction false} InsertByWithKey<T>(s: seq<T>, x: T, key: T -> int, k: int)
    ensures WithKey(InsertBy(s, x, key), key, k) == WithKey(s, key, k) + (if key(x) == k then [x] else [])
  {
    if s == [] {
      WithKeySnoc([], x, key, k);
    } else if key(s[|s| - 1]) <= key(x) {
      WithKeySnoc(s, x, key, k);
    } else {
      var prev := s[..|s| - 1];
      var last := s[|s| - 1];
      assert s == prev + [last];
      InsertByWithKey(prev, x, key, k);
      WithKeySnoc(InsertBy(prev, x, key), last, key, k);
      WithKeySnoc(prev, last, key, k);
    }
  }

  /** The sort is stable: the elements of any one key keep their input order. */
  lemma {:induction false} SortByStable<T>(s: seq<T>, key: T -> int, k: int)
    ensures WithKey(SortBy(s, key), key, k) == WithKey(s, key, k)
  {
    if s != [] {
      var prev := s[..|s| - 1];
      var last := s[|s| - 1];
      assert s == prev + [last];
      SortByStable(prev, key, k);
      InsertByWithKey(SortBy(prev, key), last, key, k);
      WithKeySnoc(prev, last, key, k);
    }
  }
}
