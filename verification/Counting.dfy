/** Counting by multisets: how many addresses or clusters live in a block. */
module Counting {

  /** If every block of Z holds at least m of the counted items, Z is small. */
  lemma {:induction false} Pigeonhole<T>(ms: multiset<T>, Z: set<T>, m: nat)
    requires forall b :: b in Z ==> ms[b] >= m
    ensures |Z| * m <= |ms|
    decreases |Z|
  {
    if Z != {} {
      var b :| b in Z;
      var rest := ms[b := 0];
      assert |rest| + ms[b] == |ms|;
      Pigeonhole(rest, Z - {b}, m);
      assert |Z| * m == |Z - {b}| * m + m;
    }
  }

  /** Fewer than n * q items cannot fill n blocks with q each. */
  lemma SomeScarce(s: seq<int>, Z: set<int>, n: nat, q: nat)
    requires |Z| == n && |s| < n * q
    ensures exists b :: b in Z && multiset(s)[b] < q
  {
    if forall b :: b in Z ==> multiset(s)[b] >= q {
      Pigeonhole(multiset(s), Z, q);
    }
  }

  /** A count is positive exactly when the value occurs. */
  lemma CountPositive(s: seq<int>, b: int)
    ensures multiset(s)[b] > 0 <==> exists i :: 0 <= i < |s| && s[i] == b
  {
    assert b in multiset(s) <==> b in s;
  }

  /** The positions at which b occurs. */
  function Positions(s: seq<int>, b: int): set<nat> {
    set i | 0 <= i < |s| && s[i] == b
  }

  lemma {:induction false} CountIsPositions(s: seq<int>, b: int)
    ensures multiset(s)[b] == |Positions(s, b)|
  {
    if s != [] {
      var n := |s| - 1;
      var t := s[..n];
      CountIsPositions(t, b);
      assert s == t + [s[n]];
      if s[n] == b {
        assert Positions(s, b) == Positions(t, b) + {n};
      } else {
        assert Positions(s, b) == Positions(t, b);
      }
    }
  }

  /** The numbers from lo below hi. */
  function Range(lo: int, hi: int): (r: set<int>)
    ensures forall x :: x in r <==> lo <= x < hi
    decreases hi - lo
  {
    if lo >= hi then {} else Range(lo, hi - 1) + {hi - 1}
  }

  lemma {:induction false} RangeSize(lo: int, hi: int)
    requires lo <= hi
    ensures |Range(lo, hi)| == hi - lo
    decreases hi - lo
  {
    if lo < hi {
      RangeSize(lo, hi - 1);
      assert Range(lo, hi) == Range(lo, hi - 1) + {hi - 1};
    }
  }

  lemma {:induction false} SubsetSize<T>(a: set<T>, b: set<T>)
    requires a <= b
    ensures |a| <= |b|
    decreases |a|
  {
    if a != {} {
      var x :| x in a;
      SubsetSize(a - {x}, b - {x});
    }
  }

  /** An injection into the numbers from lo below hi bounds a set. */
  lemma {:induction false} InjectionBound(a: set<nat>, f: nat -> int, lo: int, hi: int)
    requires lo <= hi
    requires forall x :: x in a ==> lo <= f(x) < hi
    requires forall x, y :: x in a && y in a && f(x) == f(y) ==> x == y
    ensures |a| <= hi - lo
    decreases |a|
  {
    var image := set x | x in a :: f(x);
    ImageSize(a, f);
    RangeSize(lo, hi);
    SubsetSize(image, Range(lo, hi));
  }

  lemma {:induction false} ImageSize(a: set<nat>, f: nat -> int)
    requires forall x, y :: x in a && y in a && f(x) == f(y) ==> x == y
    ensures |set x | x in a :: f(x)| == |a|
    decreases |a|
  {
    if a != {} {
      var x :| x in a;
      ImageSize(a - {x}, f);
      assert (set y | y in a :: f(y)) == (set y | y in a - {x} :: f(y)) + {f(x)};
    }
  }

  /** The values of a duplicate-free sequence. */
  lemma {:induction false} DistinctSize(s: seq<int>)
    requires forall i, j :: 0 <= i < j < |s| ==> s[i] != s[j]
    ensures |set i | 0 <= i < |s| :: s[i]| == |s|
  {
    if s != [] {
      var n := |s| - 1;
      DistinctSize(s[..n]);
      assert (set i | 0 <= i < |s| :: s[i]) == (set i | 0 <= i < n :: s[..n][i]) + {s[n]};
    }
  }
}
