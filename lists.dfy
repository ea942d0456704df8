// Sequence helpers shared by the collectors and the diagnostic engines:
// de-duplication with Python's `list(dict.fromkeys(xs))` semantics,
// counting, summation and the "set of" operation.
module Lists {

  predicate NoDup<T(==)>(xs: seq<T>)
  {
    forall i, j :: 0 <= i < j < |xs| ==> xs[i] != xs[j]
  }

  function FirstIndex<T(==)>(xs: seq<T>, x: T): (i: nat)
    requires x in xs
    ensures i < |xs| && xs[i] == x && x !in xs[..i]
  {
    if xs[0] == x then 0 else 1 + FirstIndex(xs[1..], x)
  }

  /** `list(dict.fromkeys(xs))`: every element kept at its first occurrence only. */
  function Dedup<T(==)>(xs: seq<T>): seq<T>
  {
    if |xs| == 0 then []
    else
      var init, x := xs[..|xs| - 1], xs[|xs| - 1];
      if x in init then Dedup(init) else Dedup(init) + [x]
  }

  lemma {:induction false} FirstIndexExtend<T>(xs: seq<T>, x: T, y: T)
    requires y in xs
    ensures y in xs + [x] && FirstIndex(xs + [x], y) == FirstIndex(xs, y)
  {
    if xs[0] != y {
      assert (xs + [x])[1..] == xs[1..] + [x];
      FirstIndexExtend(xs[1..], x, y);
    }
  }

  lemma {:induction false} FirstIndexLast<T>(xs: seq<T>, x: T)
    requires x !in xs
    ensures FirstIndex(xs + [x], x) == |xs|
  {
    if |xs| > 0 {
      assert (xs + [x])[1..] == xs[1..] + [x];
      FirstIndexLast(xs[1..], x);
    }
  }

  /**
   * The three facts that pin down `dict.fromkeys`: no duplicates, the same
   * elements as the input, and ordered by first occurrence in the input.
   */
  lemma {:induction false} DedupSpec<T>(xs: seq<T>)
    ensures NoDup(Dedup(xs))
    ensures forall x :: x in Dedup(xs) <==> x in xs
    ensures forall i, j :: 0 <= i < j < |Dedup(xs)| ==>
              FirstIndex(xs, Dedup(xs)[i]) < FirstIndex(xs, Dedup(xs)[j])
  {
    if |xs| > 0 {
      var init, x := xs[..|xs| - 1], xs[|xs| - 1];
      assert xs == init + [x];
      DedupSpec(init);
      var d := Dedup(init);
      forall y | y in init
        ensures y in xs && FirstIndex(xs, y) == FirstIndex(init, y)
      {
        FirstIndexExtend(init, x, y);
      }
      if x !in init {
        FirstIndexLast(init, x);
        var r := d + [x];
        assert Dedup(xs) == r;
        forall i, j | 0 <= i < j < |r|
          ensures FirstIndex(xs, r[i]) < FirstIndex(xs, r[j])
        {
          if j < |d| {
            assert r[i] == d[i] && r[j] == d[j];
          } else {
            assert r[i] == d[i] && r[j] == x;
            assert FirstIndex(init, d[i]) < |init|;
          }
        }
      }
    }
  }

  lemma DedupAppendNew<T>(xs: seq<T>, x: T)
    requires x !in xs
    ensures Dedup(xs + [x]) == Dedup(xs) + [x]
  {
    assert (xs + [x])[..|xs|] == xs;
  }

  lemma DedupAppendOld<T>(xs: seq<T>, x: T)
    requires x in xs
    ensures Dedup(xs + [x]) == Dedup(xs)
  {
    assert (xs + [x])[..|xs|] == xs;
  }

  /** The loop behind `list(dict.fromkeys(xs))`. */
  method DedupLoop<T(==)>(xs: seq<T>) returns (r: seq<T>)
    ensures r == Dedup(xs)
  {
    r := [];
    var i := 0;
    while i < |xs|
      invariant 0 <= i <= |xs|
      invariant r == Dedup(xs[..i])
      invariant forall x :: x in r <==> x in xs[..i]
    {
      assert xs[..i + 1] == xs[..i] + [xs[i]];
      if xs[i] in r {
        DedupAppendOld(xs[..i], xs[i]);
      } else {
        DedupAppendNew(xs[..i], xs[i]);
        r := r + [xs[i]];
      }
      i := i + 1;
    }
    assert xs[..i] == xs;
  }

  lemma {:induction false} DedupEmpty<T>(xs: seq<T>)
    ensures Dedup(xs) == [] <==> xs == []
  {
    DedupSpec(xs);
    if xs != [] {
      assert xs[0] in Dedup(xs);
    }
  }

  /** The set of elements of a sequence (Python's `set(xs)`). */
  function ToSet<T>(xs: seq<T>): set<T>
  {
    set x | x in xs
  }

  lemma {:induction false} ToSetSize<T>(xs: seq<T>)
    ensures |ToSet(xs)| <= |xs|
  {
    if |xs| > 0 {
      var init := xs[..|xs| - 1];
      ToSetSize(init);
      assert xs == init + [xs[|xs| - 1]];
      assert ToSet(xs) == ToSet(init) + {xs[|xs| - 1]};
    }
  }

  /** The set of images `{f(x) for x in xs}`. */
  function ImageSet<T, U>(xs: seq<T>, f: T -> U): set<U>
  {
    set k | 0 <= k < |xs| :: f(xs[k])
  }

  lemma {:induction false} ImageSetSize<T, U>(xs: seq<T>, f: T -> U)
    ensures |ImageSet(xs, f)| <= |xs|
  {
    if |xs| > 0 {
      var init := xs[..|xs| - 1];
      ImageSetSize(init, f);
      assert xs == init + [xs[|xs| - 1]];
      assert forall k :: 0 <= k < |init| ==> xs[k] == init[k];
      assert ImageSet(xs, f) == ImageSet(init, f) + {f(xs[|xs| - 1])};
    }
  }

  function CountIf<T>(xs: seq<T>, p: T -> bool): (n: nat)
    ensures n <= |xs|
  {
    if |xs| == 0 then 0
    else CountIf(xs[..|xs| - 1], p) + (if p(xs[|xs| - 1]) then 1 else 0)
  }

  lemma {:induction false} CountIfMono<T>(xs: seq<T>, p: T -> bool, q: T -> bool)
    requires forall k :: 0 <= k < |xs| && p(xs[k]) ==> q(xs[k])
    ensures CountIf(xs, p) <= CountIf(xs, q)
  {
    if |xs| > 0 {
      CountIfMono(xs[..|xs| - 1], p, q);
    }
  }

  lemma CountIfAppend<T>(xs: seq<T>, x: T, p: T -> bool)
    ensures CountIf(xs + [x], p) == CountIf(xs, p) + (if p(x) then 1 else 0)
  {
    assert (xs + [x])[..|xs|] == xs;
  }

  lemma {:induction false} CountIfConcat<T>(xs: seq<T>, ys: seq<T>, p: T -> bool)
    ensures CountIf(xs + ys, p) == CountIf(xs, p) + CountIf(ys, p)
  {
    if |ys| > 0 {
      var init := ys[..|ys| - 1];
      CountIfConcat(xs, init, p);
      assert (xs + ys)[..|xs + ys| - 1] == xs + init;
    } else {
      assert xs + ys == xs;
    }
  }

  /** Some element satisfies `p` exactly when the count is positive. */
  lemma {:induction false} CountIfPositive<T>(xs: seq<T>, p: T -> bool)
    ensures CountIf(xs, p) > 0 <==> exists k :: 0 <= k < |xs| && p(xs[k])
  {
    if |xs| > 0 {
      var init := xs[..|xs| - 1];
      CountIfPositive(init, p);
      if exists k :: 0 <= k < |init| && p(init[k]) {
        var k :| 0 <= k < |init| && p(init[k]);
        assert xs[k] == init[k];
      }
      if exists k :: 0 <= k < |xs| && p(xs[k]) {
        var k :| 0 <= k < |xs| && p(xs[k]);
        if k < |init| {
          assert init[k] == xs[k];
        }
      }
    }
  }

  /** The concatenation of `f` over the elements, in order. */
  function FlatMap<T, U>(xs: seq<T>, f: T -> seq<U>): seq<U>
  {
    if |xs| == 0 then [] else FlatMap(xs[..|xs| - 1], f) + f(xs[|xs| - 1])
  }

  lemma FlatMapAppend<T, U>(xs: seq<T>, x: T, f: T -> seq<U>)
    ensures FlatMap(xs + [x], f) == FlatMap(xs, f) + f(x)
  {
    assert (xs + [x])[..|xs|] == xs;
  }

  /** One more element of a prefix adds its image at the end. */
  lemma FlatMapPrefix<T, U>(xs: seq<T>, i: nat, f: T -> seq<U>)
    requires i < |xs|
    ensures FlatMap(xs[..i + 1], f) == FlatMap(xs[..i], f) + f(xs[i])
  {
    assert xs[..i + 1][..i] == xs[..i];
  }

  /** The whole sequence is its longest prefix. */
  lemma FlatMapWhole<T, U>(xs: seq<T>, f: T -> seq<U>)
    ensures FlatMap(xs[..|xs|], f) == FlatMap(xs, f)
  {
    assert xs[..|xs|] == xs;
  }

  /** The concatenation over two joined sequences is the concatenation of the two. */
  lemma {:induction false} FlatMapConcat<T, U>(xs: seq<T>, ys: seq<T>, f: T -> seq<U>)
    ensures FlatMap(xs + ys, f) == FlatMap(xs, f) + FlatMap(ys, f)
    decreases |ys|
  {
    if |ys| == 0 {
      assert xs + ys == xs;
    } else {
      var init := ys[..|ys| - 1];
      FlatMapConcat(xs, init, f);
      assert (xs + ys)[..|xs + ys| - 1] == xs + init;
    }
  }

  /** An element of the concatenation comes from some element's image, and every image is in it. */
  lemma {:induction false} FlatMapMembers<T, U>(xs: seq<T>, f: T -> seq<U>, y: U)
    ensures y in FlatMap(xs, f) <==> exists k :: 0 <= k < |xs| && y in f(xs[k])
  {
    if |xs| > 0 {
      var init := xs[..|xs| - 1];
      FlatMapMembers(init, f, y);
      if exists k :: 0 <= k < |xs| && y in f(xs[k]) {
        var k :| 0 <= k < |xs| && y in f(xs[k]);
        if k < |init| {
          assert xs[k] == init[k];
        }
      }
      if exists k :: 0 <= k < |init| && y in f(init[k]) {
        var k :| 0 <= k < |init| && y in f(init[k]);
        assert xs[k] == init[k];
      }
    }
  }

  /** The concatenation is non-empty exactly when some image is. */
  lemma FlatMapEmpty<T, U>(xs: seq<T>, f: T -> seq<U>)
    ensures |FlatMap(xs, f)| > 0 <==> exists k :: 0 <= k < |xs| && f(xs[k]) != []
  {
    var r := FlatMap(xs, f);
    if |r| > 0 {
      FlatMapMembers(xs, f, r[0]);
    }
    if exists k :: 0 <= k < |xs| && f(xs[k]) != [] {
      var k :| 0 <= k < |xs| && f(xs[k]) != [];
      FlatMapMembers(xs, f, f(xs[k])[0]);
    }
  }

  function SumBy<T>(xs: seq<T>, f: T -> real): real
  {
    if |xs| == 0 then 0.0 else SumBy(xs[..|xs| - 1], f) + f(xs[|xs| - 1])
  }

  lemma SumByAppend<T>(xs: seq<T>, x: T, f: T -> real)
    ensures SumBy(xs + [x], f) == SumBy(xs, f) + f(x)
  {
    assert (xs + [x])[..|xs|] == xs;
  }

  lemma ConcatAssoc<T>(a: seq<T>, b: seq<T>, c: seq<T>)
    ensures a + (b + c) == (a + b) + c
  {
  }

  function Sum(xs: seq<real>): real
  {
    if |xs| == 0 then 0.0 else Sum(xs[..|xs| - 1]) + xs[|xs| - 1]
  }

  /** `sum(xs) / len(xs)`, with 0 for the empty list (where the source divides only when non-empty). */
  function Mean(xs: seq<real>): real
  {
    if |xs| == 0 then 0.0 else Sum(xs) / |xs| as real
  }

  lemma {:induction false} SumBounds(xs: seq<real>, lo: real, hi: real)
    requires forall k :: 0 <= k < |xs| ==> lo <= xs[k] <= hi
    ensures lo * |xs| as real <= Sum(xs) <= hi * |xs| as real
  {
    if |xs| > 0 {
      SumBounds(xs[..|xs| - 1], lo, hi);
      assert lo * |xs| as real == lo * (|xs| - 1) as real + lo;
      assert hi * |xs| as real == hi * (|xs| - 1) as real + hi;
    }
  }

  lemma MeanBounds(s: real, n: real, lo: real, hi: real)
    requires n > 0.0 && lo * n <= s <= hi * n
    ensures lo <= s / n <= hi
  {
    assert (s / n) * n == s;
  }

  /** A mean lies within any bounds its elements lie within. */
  lemma MeanWithin(xs: seq<real>, lo: real, hi: real)
    requires forall k :: 0 <= k < |xs| ==> lo <= xs[k] <= hi
    requires |xs| > 0 || lo <= 0.0 <= hi
    ensures lo <= Mean(xs) <= hi
  {
    if |xs| > 0 {
      SumBounds(xs, lo, hi);
      MeanBounds(Sum(xs), |xs| as real, lo, hi);
    }
  }

  function SumIntBy<T>(xs: seq<T>, f: T -> int): int
  {
    if |xs| == 0 then 0 else SumIntBy(xs[..|xs| - 1], f) + f(xs[|xs| - 1])
  }

  lemma SumIntByAppend<T>(xs: seq<T>, x: T, f: T -> int)
    ensures SumIntBy(xs + [x], f) == SumIntBy(xs, f) + f(x)
  {
    assert (xs + [x])[..|xs|] == xs;
  }

  function Filter<T>(xs: seq<T>, p: T -> bool): (r: seq<T>)
    ensures |r| == CountIf(xs, p)
    ensures forall k :: 0 <= k < |r| ==> r[k] in xs && p(r[k])
    ensures forall k :: 0 <= k < |xs| && p(xs[k]) ==> xs[k] in r
  {
    if |xs| == 0 then []
    else Filter(xs[..|xs| - 1], p) + (if p(xs[|xs| - 1]) then [xs[|xs| - 1]] else [])
  }

  lemma FilterAppend<T>(xs: seq<T>, x: T, p: T -> bool)
    ensures Filter(xs + [x], p) == Filter(xs, p) + (if p(x) then [x] else [])
  {
    assert (xs + [x])[..|xs|] == xs;
  }

  lemma {:induction false} FilterConcat<T>(xs: seq<T>, ys: seq<T>, p: T -> bool)
    ensures Filter(xs + ys, p) == Filter(xs, p) + Filter(ys, p)
  {
    if |ys| > 0 {
      var init := ys[..|ys| - 1];
      FilterConcat(xs, init, p);
      assert (xs + ys)[..|xs + ys| - 1] == xs + init;
    } else {
      assert xs + ys == xs;
    }
  }

  lemma {:induction false} FilterAll<T>(xs: seq<T>, p: T -> bool)
    requires forall x :: x in xs ==> p(x)
    ensures Filter(xs, p) == xs
  {
    if |xs| > 0 {
      FilterAll(xs[..|xs| - 1], p);
      assert xs == xs[..|xs| - 1] + [xs[|xs| - 1]];
    }
  }

  function Take<T>(xs: seq<T>, n: nat): (r: seq<T>)
    ensures |r| == if |xs| < n then |xs| else n
    ensures r == xs[..|r|]
  {
    if |xs| <= n then xs else xs[..n]
  }

  /** `dict(pairs)`: a later pair for a key replaces an earlier one. */
  function ToMap<K(==), V>(pairs: seq<(K, V)>): map<K, V>
  {
    if |pairs| == 0 then map[]
    else ToMap(pairs[..|pairs| - 1])[pairs[|pairs| - 1].0 := pairs[|pairs| - 1].1]
  }

  lemma ToMapAppend<K, V>(pairs: seq<(K, V)>, p: (K, V))
    ensures ToMap(pairs + [p]) == ToMap(pairs)[p.0 := p.1]
  {
    assert (pairs + [p])[..|pairs|] == pairs;
  }

  /** A key is present exactly when some pair has it. */
  lemma {:induction false} ToMapKeys<K, V>(pairs: seq<(K, V)>, key: K)
    ensures key in ToMap(pairs) <==> exists j :: 0 <= j < |pairs| && pairs[j].0 == key
  {
    if |pairs| > 0 {
      var n := |pairs| - 1;
      var init := pairs[..n];
      ToMapKeys(init, key);
      if exists j :: 0 <= j < |init| && init[j].0 == key {
        var j :| 0 <= j < |init| && init[j].0 == key;
        assert pairs[j] == init[j];
      }
      if exists j :: 0 <= j < |pairs| && pairs[j].0 == key {
        var j :| 0 <= j < |pairs| && pairs[j].0 == key;
        if j < n {
          assert init[j] == pairs[j];
        }
      }
    }
  }

  /** The value of a key is that of the last pair with it. */
  lemma {:induction false} ToMapLast<K, V>(pairs: seq<(K, V)>, key: K, j: nat)
    requires j < |pairs| && pairs[j].0 == key
    requires forall i :: j < i < |pairs| ==> pairs[i].0 != key
    ensures key in ToMap(pairs) && ToMap(pairs)[key] == pairs[j].1
  {
    var n := |pairs| - 1;
    var init := pairs[..n];
    if j < n {
      assert init[j] == pairs[j];
      assert pairs[n].0 != key;
      forall i | j < i < |init| ensures init[i].0 != key {
        assert init[i] == pairs[i];
      }
      ToMapLast(init, key, j);
    }
  }

  /** `[f(x) for x in xs]`. */
  function Map<T, U>(xs: seq<T>, f: T -> U): (r: seq<U>)
    ensures |r| == |xs|
    ensures forall k :: 0 <= k < |xs| ==> r[k] == f(xs[k])
  {
    if |xs| == 0 then [] else Map(xs[..|xs| - 1], f) + [f(xs[|xs| - 1])]
  }

  lemma MapPrefix<T, U>(xs: seq<T>, i: nat, f: T -> U)
    requires i < |xs|
    ensures Map(xs[..i + 1], f) == Map(xs[..i], f) + [f(xs[i])]
  {
    assert xs[..i + 1][..i] == xs[..i];
  }

  lemma ImageSetPrefix<T, U>(xs: seq<T>, i: nat, f: T -> U)
    requires i < |xs|
    ensures ImageSet(xs[..i + 1], f) == ImageSet(xs[..i], f) + {f(xs[i])}
  {
    var a, b := xs[..i + 1], xs[..i];
    assert forall k :: 0 <= k < i ==> a[k] == b[k];
    assert a[i] == xs[i];
  }

  /** Predicates that agree on every element count alike. */
  lemma CountIfSame<T>(xs: seq<T>, p: T -> bool, q: T -> bool)
    requires forall k :: 0 <= k < |xs| ==> p(xs[k]) == q(xs[k])
    ensures CountIf(xs, p) == CountIf(xs, q)
  {
    CountIfMono(xs, p, q);
    CountIfMono(xs, q, p);
  }

  lemma CountIfPrefix<T>(xs: seq<T>, i: nat, p: T -> bool)
    requires i < |xs|
    ensures CountIf(xs[..i + 1], p) == CountIf(xs[..i], p) + (if p(xs[i]) then 1 else 0)
  {
    assert xs[..i + 1][..i] == xs[..i];
  }

  lemma SumByPrefix<T>(xs: seq<T>, i: nat, f: T -> real)
    requires i < |xs|
    ensures SumBy(xs[..i + 1], f) == SumBy(xs[..i], f) + f(xs[i])
  {
    assert xs[..i + 1][..i] == xs[..i];
  }
}
