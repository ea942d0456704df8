// Python's `sorted(xs, key=k)`: a stable sort by a real-valued key.
// Descending orders in the source are written `key=lambda x: -f(x)`, and
// the model does the same with a negated key.
module Sorting {

  predicate SortedBy<T>(s: seq<T>, key: T -> real)
  {
    forall i, j :: 0 <= i < j < |s| ==> key(s[i]) <= key(s[j])
  }

  /** Insert `x` after every element whose key is at most key(x), which keeps the sort stable. */
  function InsertBy<T>(s: seq<T>, x: T, key: T -> real): (r: seq<T>)
    ensures |r| == |s| + 1
  {
    if |s| == 0 then [x]
    else if key(s[|s| - 1]) <= key(x) then s + [x]
    else InsertBy(s[..|s| - 1], x, key) + [s[|s| - 1]]
  }

  /** Stable insertion sort: the unique stable ordering that `sorted` also produces. */
  function SortBy<T>(xs: seq<T>, key: T -> real): (r: seq<T>)
    ensures |r| == |xs|
  {
    if |xs| == 0 then [] else InsertBy(SortBy(xs[..|xs| - 1], key), xs[|xs| - 1], key)
  }

  lemma {:induction false} InsertByPerm<T>(s: seq<T>, x: T, key: T -> real)
    ensures multiset(InsertBy(s, x, key)) == multiset(s) + multiset{x}
  {
    if |s| > 0 && key(s[|s| - 1]) > key(x) {
      var init, last := s[..|s| - 1], s[|s| - 1];
      InsertByPerm(init, x, key);
      assert s == init + [last];
    }
  }

  lemma {:induction false} InsertBySorted<T>(s: seq<T>, x: T, key: T -> real)
    requires SortedBy(s, key)
    ensures SortedBy(InsertBy(s, x, key), key)
  {
    if |s| > 0 && key(s[|s| - 1]) > key(x) {
      var init, last := s[..|s| - 1], s[|s| - 1];
      InsertBySorted(init, x, key);
      InsertByPerm(init, x, key);
      var t := InsertBy(init, x, key);
      forall k | 0 <= k < |t|
        ensures key(t[k]) <= key(last)
      {
        assert t[k] in multiset(t);
        assert t[k] in multiset(init) || t[k] == x;
        if t[k] != x {
          var m :| 0 <= m < |init| && init[m] == t[k];
          assert s[m] == init[m];
        }
      }
    }
  }

  /** The elements of `s` whose key is `v`, in their order in `s`. */
  function WithKey<T>(s: seq<T>, key: T -> real, v: real): seq<T>
  {
    if |s| == 0 then []
    else WithKey(s[..|s| - 1], key, v) + (if key(s[|s| - 1]) == v then [s[|s| - 1]] else [])
  }

  /** Inserting `x` puts it after every element of its own key, and moves no other key's elements. */
  lemma {:induction false} InsertByStable<T>(s: seq<T>, x: T, key: T -> real, v: real)
    ensures WithKey(InsertBy(s, x, key), key, v) == WithKey(s, key, v) + (if key(x) == v then [x] else [])
  {
    var r := InsertBy(s, x, key);
    if |s| == 0 {
      assert r[..0] == [];
    } else if key(s[|s| - 1]) <= key(x) {
      assert r[..|r| - 1] == s;
    } else {
      var init, last := s[..|s| - 1], s[|s| - 1];
      assert r[..|r| - 1] == InsertBy(init, x, key) && r[|r| - 1] == last;
      InsertByStable(init, x, key, v);
    }
  }

  /** `sorted` is stable: the elements of each key keep their input order. */
  lemma {:induction false} SortByStable<T>(xs: seq<T>, key: T -> real, v: real)
    ensures WithKey(SortBy(xs, key), key, v) == WithKey(xs, key, v)
  {
    if |xs| > 0 {
      var init := xs[..|xs| - 1];
      SortByStable(init, key, v);
      InsertByStable(SortBy(init, key), xs[|xs| - 1], key, v);
    }
  }

  /** The result of `sorted` is ordered by the key. */
  lemma {:induction false} SortBySorted<T>(xs: seq<T>, key: T -> real)
    ensures SortedBy(SortBy(xs, key), key)
  {
    if |xs| > 0 {
      var init := xs[..|xs| - 1];
      SortBySorted(init, key);
      InsertBySorted(SortBy(init, key), xs[|xs| - 1], key);
    }
  }

  /** The result of `sorted` is a permutation of the input. */
  lemma {:induction false} SortByPerm<T>(xs: seq<T>, key: T -> real)
    ensures multiset(SortBy(xs, key)) == multiset(xs)
  {
    if |xs| > 0 {
      var init, last := xs[..|xs| - 1], xs[|xs| - 1];
      assert xs == init + [last];
      calc {
        multiset(SortBy(xs, key));
        multiset(InsertBy(SortBy(init, key), last, key));
        { InsertByPerm(SortBy(init, key), last, key); }
        multiset(SortBy(init, key)) + multiset{last};
        { SortByPerm(init, key); }
        multiset(init) + multiset{last};
        multiset(xs);
      }
    }
  }

  /** The result of `sorted` is ordered by the key and is a permutation of the input. */
  lemma SortBySpec<T>(xs: seq<T>, key: T -> real)
    ensures SortedBy(SortBy(xs, key), key)
    ensures multiset(SortBy(xs, key)) == multiset(xs)
  {
    SortBySorted(xs, key);
    SortByPerm(xs, key);
  }
}
