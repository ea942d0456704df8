// Python's ordering of strings (code point by code point, a proper prefix
// first) and `sorted(s)` for a set of strings.
module StringOrder {

  predicate Less(a: string, b: string)
  {
    if |a| == 0 then |b| > 0
    else if |b| == 0 then false
    else if a[0] != b[0] then a[0] < b[0]
    else Less(a[1..], b[1..])
  }

  lemma {:induction false} LessIrreflexive(a: string)
    ensures !Less(a, a)
  {
    if |a| > 0 {
      LessIrreflexive(a[1..]);
    }
  }

  lemma {:induction false} LessTransitive(a: string, b: string, c: string)
    requires Less(a, b) && Less(b, c)
    ensures Less(a, c)
  {
    if |a| > 0 && |b| > 0 && |c| > 0 && a[0] == b[0] && b[0] == c[0] {
      LessTransitive(a[1..], b[1..], c[1..]);
    }
  }

  /** Two different strings are ordered one way or the other. */
  lemma {:induction false} LessTotal(a: string, b: string)
    requires a != b
    ensures Less(a, b) || Less(b, a)
  {
    if |a| > 0 && |b| > 0 && a[0] == b[0] {
      assert a == [a[0]] + a[1..] && b == [b[0]] + b[1..];
      LessTotal(a[1..], b[1..]);
    }
  }

  lemma LessAsymmetric(a: string, b: string)
    requires Less(a, b)
    ensures !Less(b, a)
  {
    if Less(b, a) {
      LessTransitive(a, b, a);
      LessIrreflexive(a);
    }
  }

  predicate IsLeast(m: string, s: set<string>)
  {
    m in s && forall x :: x in s && x != m ==> Less(m, x)
  }

  lemma {:induction false} LeastExists(s: set<string>)
    requires s != {}
    ensures exists m :: IsLeast(m, s)
    decreases |s|
  {
    var y :| y in s;
    var rest := s - {y};
    if rest == {} {
      assert s == {y};
      assert IsLeast(y, s);
    } else {
      LeastExists(rest);
      var m :| IsLeast(m, rest);
      if Less(y, m) {
        forall x | x in s && x != y
          ensures Less(y, x)
        {
          if x != m {
            LessTransitive(y, m, x);
          }
        }
        assert IsLeast(y, s);
      } else {
        LessTotal(y, m);
        assert IsLeast(m, s);
      }
    }
  }

  predicate StrictlyIncreasing(r: seq<string>)
  {
    forall i, j :: 0 <= i < j < |r| ==> Less(r[i], r[j])
  }

  /** Insert a string into an increasing list; a string already there is not added again. */
  function Insert(r: seq<string>, x: string): seq<string>
  {
    if |r| == 0 then [x]
    else if x == r[0] then r
    else if Less(x, r[0]) then [x] + r
    else [r[0]] + Insert(r[1..], x)
  }

  /** The strings of a list, without duplicates, in increasing order. */
  function SortUnique(xs: seq<string>): seq<string>
  {
    if |xs| == 0 then [] else Insert(SortUnique(xs[..|xs| - 1]), xs[|xs| - 1])
  }

  lemma {:induction false} InsertSpec(r: seq<string>, x: string)
    requires StrictlyIncreasing(r)
    ensures StrictlyIncreasing(Insert(r, x))
    ensures forall y :: y in Insert(r, x) <==> y in r || y == x
  {
    if |r| > 0 && x != r[0] && !Less(x, r[0]) {
      var tail := r[1..];
      assert StrictlyIncreasing(tail) by {
        forall i, j | 0 <= i < j < |tail| ensures Less(tail[i], tail[j]) {
          assert tail[i] == r[i + 1] && tail[j] == r[j + 1];
        }
      }
      InsertSpec(tail, x);
      LessTotal(x, r[0]);
      var t := Insert(tail, x);
      var u := [r[0]] + t;
      forall y | y in t
        ensures Less(r[0], y)
      {
        if y != x {
          var k :| 0 <= k < |tail| && tail[k] == y;
          assert r[k + 1] == y;
        }
      }
      forall i, j | 0 <= i < j < |u|
        ensures Less(u[i], u[j])
      {
        if i > 0 {
          assert u[i] == t[i - 1] && u[j] == t[j - 1];
        } else {
          assert u[j] == t[j - 1];
          assert u[j] in t;
        }
      }
      assert r == [r[0]] + tail;
    } else if |r| > 0 && x != r[0] {
      var u := [x] + r;
      forall i, j | 0 <= i < j < |u|
        ensures Less(u[i], u[j])
      {
        if i > 0 {
          assert u[i] == r[i - 1] && u[j] == r[j - 1];
        } else if j > 1 {
          assert u[j] == r[j - 1];
          LessTransitive(x, r[0], r[j - 1]);
        }
      }
    }
  }

  /** The sorted list is strictly increasing and holds exactly the strings of the list. */
  lemma {:induction false} SortUniqueSpec(xs: seq<string>)
    ensures StrictlyIncreasing(SortUnique(xs))
    ensures forall y :: y in SortUnique(xs) <==> y in xs
  {
    if |xs| > 0 {
      var init := xs[..|xs| - 1];
      SortUniqueSpec(init);
      InsertSpec(SortUnique(init), xs[|xs| - 1]);
      assert xs == init + [xs[|xs| - 1]];
    }
  }

  /** Two strictly increasing lists with the same strings are the same list. */
  lemma {:induction false} IncreasingUnique(a: seq<string>, b: seq<string>)
    requires StrictlyIncreasing(a) && StrictlyIncreasing(b)
    requires forall y :: y in a <==> y in b
    ensures a == b
  {
    if |a| > 0 {
      assert a[0] in b;
    }
    if |b| > 0 {
      assert b[0] in a;
    }
    if |a| > 0 && |b| > 0 {
      LeastFirst(a);
      LeastFirst(b);
      NotBoth(a[0], b[0]);
      var ta, tb := a[1..], b[1..];
      assert a == [a[0]] + ta && b == [b[0]] + tb;
      forall y
        ensures y in ta <==> y in tb
      {
        if y in ta {
          var k :| 0 <= k < |ta| && ta[k] == y;
          assert a[k + 1] == y && Less(a[0], a[k + 1]);
          LessIrreflexive(y);
          assert y in b && y != b[0];
        }
        if y in tb {
          var k :| 0 <= k < |tb| && tb[k] == y;
          assert b[k + 1] == y && Less(b[0], b[k + 1]);
          LessIrreflexive(y);
          assert y in a && y != a[0];
        }
      }
      assert StrictlyIncreasing(ta) by {
        forall i, j | 0 <= i < j < |ta| ensures Less(ta[i], ta[j]) {
          assert ta[i] == a[i + 1] && ta[j] == a[j + 1];
        }
      }
      assert StrictlyIncreasing(tb) by {
        forall i, j | 0 <= i < j < |tb| ensures Less(tb[i], tb[j]) {
          assert tb[i] == b[i + 1] && tb[j] == b[j + 1];
        }
      }
      IncreasingUnique(ta, tb);
    }
  }

  /** No two strings are each below the other. */
  lemma NotBoth(a: string, b: string)
    ensures !(Less(a, b) && Less(b, a))
  {
    if Less(a, b) {
      LessAsymmetric(a, b);
    }
  }

  /** The first string of an increasing list is below every other one. */
  lemma LeastFirst(a: seq<string>)
    requires |a| > 0 && StrictlyIncreasing(a)
    ensures forall x :: x in a ==> x == a[0] || Less(a[0], x)
  {
    forall x | x in a
      ensures x == a[0] || Less(a[0], x)
    {
      var k :| 0 <= k < |a| && a[k] == x;
      if k > 0 {
        assert Less(a[0], a[k]);
      }
    }
  }

  /** `sorted(s)` for a set of strings: take the least string until none is left. */
  method SortSet(s: set<string>) returns (r: seq<string>)
    ensures StrictlyIncreasing(r)
    ensures forall y :: y in r <==> y in s
  {
    r := [];
    var rest := s;
    while rest != {}
      invariant StrictlyIncreasing(r)
      invariant forall y :: y in s <==> y in r || y in rest
      invariant forall x, y :: x in r && y in rest ==> Less(x, y)
      invariant forall y :: y in r ==> y !in rest
      decreases |rest|
    {
      LeastExists(rest);
      var m :| IsLeast(m, rest);
      var r' := r + [m];
      forall i, j | 0 <= i < j < |r'|
        ensures Less(r'[i], r'[j])
      {
        if j < |r| {
          assert r'[i] == r[i] && r'[j] == r[j];
        } else {
          assert r'[i] == r[i] && r'[i] in r;
        }
      }
      r := r';
      rest := rest - {m};
    }
  }
}
