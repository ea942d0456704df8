// Python dictionaries whose insertion order is observable, modelled as
// association lists: a sequence of (key, value) pairs in insertion order.
// `Put` is `d[k] = v` (an existing key keeps its place), `Inc` is the
// counter idiom `d[k] = d.get(k, 0) + 1`.
module Assoc {
  import opened Wrappers
  import Lists

  function Keys<K, V>(a: seq<(K, V)>): (ks: seq<K>)
    ensures |ks| == |a|
  {
    if |a| == 0 then [] else [a[0].0] + Keys(a[1..])
  }

  predicate DistinctKeys<K(==), V>(a: seq<(K, V)>)
  {
    Lists.NoDup(Keys(a))
  }

  function Get<K(==), V>(a: seq<(K, V)>, k: K): Option<V>
  {
    if |a| == 0 then None
    else if a[0].0 == k then Some(a[0].1)
    else Get(a[1..], k)
  }

  function Put<K(==), V>(a: seq<(K, V)>, k: K, v: V): seq<(K, V)>
  {
    if |a| == 0 then [(k, v)]
    else if a[0].0 == k then [(k, v)] + a[1..]
    else [a[0]] + Put(a[1..], k, v)
  }

  function Inc<K(==)>(a: seq<(K, int)>, k: K): seq<(K, int)>
  {
    Put(a, k, Get(a, k).GetOr(0) + 1)
  }

  function SumValues<K>(a: seq<(K, int)>): int
  {
    if |a| == 0 then 0 else a[0].1 + SumValues(a[1..])
  }

  lemma {:induction false} KeysIn<K, V>(a: seq<(K, V)>, k: K)
    ensures k in Keys(a) <==> Get(a, k).Some?
  {
    if |a| > 0 {
      KeysIn(a[1..], k);
    }
  }

  /** `d[k] = v` then `d[k]` gives `v`; every other key is untouched. */
  lemma {:induction false} GetPut<K, V>(a: seq<(K, V)>, k: K, v: V, j: K)
    ensures Get(Put(a, k, v), j) == if j == k then Some(v) else Get(a, j)
  {
    if |a| > 0 && a[0].0 != k {
      GetPut(a[1..], k, v, j);
    }
  }

  /** An existing key keeps its position; a new key is appended. */
  lemma {:induction false} KeysPut<K, V>(a: seq<(K, V)>, k: K, v: V)
    ensures Keys(Put(a, k, v)) == if k in Keys(a) then Keys(a) else Keys(a) + [k]
  {
    if |a| > 0 {
      KeysPut(a[1..], k, v);
      if a[0].0 != k {
        assert Keys(a) == [a[0].0] + Keys(a[1..]);
        assert Put(a, k, v)[1..] == Put(a[1..], k, v);
      }
    }
  }

  lemma {:induction false} SumInc<K>(a: seq<(K, int)>, k: K)
    ensures SumValues(Inc(a, k)) == SumValues(a) + 1
  {
    SumPut(a, k, Get(a, k).GetOr(0) + 1);
  }

  lemma {:induction false} SumPut<K>(a: seq<(K, int)>, k: K, v: int)
    ensures SumValues(Put(a, k, v)) == SumValues(a) - Get(a, k).GetOr(0) + v
  {
    if |a| > 0 && a[0].0 != k {
      SumPut(a[1..], k, v);
      assert Put(a, k, v)[1..] == Put(a[1..], k, v);
    } else if |a| > 0 {
      assert Put(a, k, v)[1..] == a[1..];
    }
  }

  // ---------------------------------------------------------------
  // defaultdict(list): values grouped by key, keys by first appearance
  // ---------------------------------------------------------------

  /** `d[k].append(v)` on a `defaultdict(list)`. */
  function Append<K(==), V>(a: seq<(K, seq<V>)>, k: K, v: V): seq<(K, seq<V>)>
  {
    Put(a, k, Get(a, k).GetOr([]) + [v])
  }

  /** The dictionary built by appending every pair in turn to an empty `defaultdict(list)`. */
  function Group<K(==), V>(ps: seq<(K, V)>): seq<(K, seq<V>)>
  {
    if |ps| == 0 then []
    else
      var last := ps[|ps| - 1];
      Append(Group(ps[..|ps| - 1]), last.0, last.1)
  }

  /** The values paired with `k`, in their order. */
  function ValuesOf<K(==), V>(ps: seq<(K, V)>, k: K): seq<V>
  {
    if |ps| == 0 then []
    else ValuesOf(ps[..|ps| - 1], k) + (if ps[|ps| - 1].0 == k then [ps[|ps| - 1].1] else [])
  }

  /** Each key's list holds exactly the values paired with it, in order; a key without one is absent. */
  lemma {:induction false} GroupGet<K, V>(ps: seq<(K, V)>, k: K)
    ensures Get(Group(ps), k) == if ValuesOf(ps, k) == [] then None else Some(ValuesOf(ps, k))
  {
    if |ps| > 0 {
      var init, last := ps[..|ps| - 1], ps[|ps| - 1];
      var g := Group(init);
      GroupGet(init, k);
      assert Get(g, k).GetOr([]) == ValuesOf(init, k);
      GetPut(g, last.0, Get(g, last.0).GetOr([]) + [last.1], k);
      if last.0 == k {
        assert ValuesOf(ps, k) == ValuesOf(init, k) + [last.1];
      } else {
        assert ValuesOf(ps, k) == ValuesOf(init, k);
      }
    }
  }

  /** The keys are the distinct keys of the pairs, in order of first appearance. */
  lemma {:induction false} GroupKeys<K, V>(ps: seq<(K, V)>)
    ensures Keys(Group(ps)) == Lists.Dedup(Keys(ps))
  {
    if |ps| > 0 {
      var init, last := ps[..|ps| - 1], ps[|ps| - 1];
      GroupKeys(init);
      KeysPrefix(ps);
      var g := Group(init);
      KeysPut(g, last.0, Get(g, last.0).GetOr([]) + [last.1]);
      Lists.DedupSpec(Keys(init));
    }
  }

  lemma {:induction false} KeysPrefix<K, V>(ps: seq<(K, V)>)
    requires |ps| > 0
    ensures Keys(ps) == Keys(ps[..|ps| - 1]) + [ps[|ps| - 1].0]
  {
    if |ps| > 1 {
      KeysPrefix(ps[1..]);
      assert ps[1..][..|ps[1..]| - 1] == ps[..|ps| - 1][1..];
    }
  }

  /** The appending loop behind a `defaultdict(list)`. */
  method GroupLoop<K(==), V>(ps: seq<(K, V)>) returns (g: seq<(K, seq<V>)>)
    ensures g == Group(ps)
  {
    g := [];
    var i := 0;
    while i < |ps|
      invariant 0 <= i <= |ps|
      invariant g == Group(ps[..i])
    {
      assert ps[..i + 1][..i] == ps[..i];
      g := Append(g, ps[i].0, ps[i].1);
      i := i + 1;
    }
    assert ps[..i] == ps;
  }

  // ---------------------------------------------------------------
  // Sums and invariants over the values
  // ---------------------------------------------------------------

  /** `sum(f(v) for v in d.values())`. */
  function SumOver<K, V>(a: seq<(K, V)>, f: V -> real): real
  {
    if |a| == 0 then 0.0 else f(a[0].1) + SumOver(a[1..], f)
  }

  /** `d[k] = v` changes the sum by the new value less the old one. */
  lemma {:induction false} SumOverPut<K, V>(a: seq<(K, V)>, k: K, v: V, f: V -> real)
    ensures SumOver(Put(a, k, v), f)
         == SumOver(a, f) - (if Get(a, k).Some? then f(Get(a, k).value) else 0.0) + f(v)
  {
    if |a| > 0 && a[0].0 != k {
      SumOverPut(a[1..], k, v, f);
      assert Put(a, k, v)[1..] == Put(a[1..], k, v);
    } else if |a| > 0 {
      assert Put(a, k, v)[1..] == a[1..];
    }
  }

  predicate AllValues<K, V>(a: seq<(K, V)>, p: V -> bool)
  {
    forall i :: 0 <= i < |a| ==> p(a[i].1)
  }

  /** Storing a value with a property keeps the property of every value. */
  lemma {:induction false} PutKeeps<K, V>(a: seq<(K, V)>, k: K, v: V, p: V -> bool)
    requires AllValues(a, p) && p(v)
    ensures AllValues(Put(a, k, v), p)
  {
    if |a| > 0 && a[0].0 != k {
      PutKeeps(a[1..], k, v, p);
      var r := Put(a, k, v);
      assert r == [a[0]] + Put(a[1..], k, v);
      forall i | 0 <= i < |r| ensures p(r[i].1) {
        if i > 0 {
          assert r[i] == Put(a[1..], k, v)[i - 1];
        }
      }
    } else if |a| > 0 {
      var r := Put(a, k, v);
      forall i | 0 <= i < |r| ensures p(r[i].1) {
        if i > 0 {
          assert r[i] == a[i];
        }
      }
    }
  }

  lemma {:induction false} GetKeeps<K, V>(a: seq<(K, V)>, k: K, p: V -> bool)
    requires AllValues(a, p) && Get(a, k).Some?
    ensures p(Get(a, k).value)
  {
    if a[0].0 != k {
      assert AllValues(a[1..], p) by {
        forall i | 0 <= i < |a| - 1 ensures p(a[1..][i].1) {
          assert a[1..][i] == a[i + 1];
        }
      }
      GetKeeps(a[1..], k, p);
    }
  }
}
