/** Counting facts about finite sets, sequences and multisets: a subset is no larger, a subset of
    the same size is the whole set, the first n naturals are n, a disjoint split adds up, and a bag
    with a bounded number of each kind is bounded by the number of kinds. */
module Finite {
  import opened Sorting

  lemma Pick<T>(a: set<T>) returns (x: T)
    requires a != {}
    ensures x in a
  {
    x :| x in a;
  }

  lemma PickFromBag<T>(m: multiset<T>) returns (x: T)
    requires m != multiset{}
    ensures x in m
  {
    x :| x in m;
  }

  lemma {:induction false} SubsetSize<T>(a: set<T>, b: set<T>)
    requires a <= b
    ensures |a| <= |b|
    decreases a
  {
    if a != {} {
      var x :| x in a;
      SubsetSize(a - {x}, b - {x});
    }
  }

  lemma SubsetOfSameSize<T>(a: set<T>, b: set<T>)
    requires a <= b && |a| >= |b|
    ensures a == b
  {
    if b - a != {} {
      var x :| x in b - a;
      SubsetSize(a, b - {x});
    }
  }

  /** `all` is the disjoint union of a and b, said element by element. */
  ghost predicate Splits<T>(all: set<T>, a: set<T>, b: set<T>) {
    && (forall x :: x in all ==> x in a || x in b)
    && (forall x :: x in a ==> x in all && x !in b)
    && (forall x :: x in b ==> x in all)
  }

  lemma SplitOfSet<T>(all: set<T>, a: set<T>, b: set<T>)
    requires Splits(all, a, b)
    ensures a !! b && a + b == all && |a| + |b| == |all|
  {
    assert a + b == all;
  }

  /** The first n naturals. */
  ghost function Range(n: nat): set<int> {
    if n == 0 then {} else Range(n - 1) + {n - 1}
  }

  lemma {:induction false} InRange(n: nat, i: int)
    ensures i in Range(n) <==> 0 <= i < n
  {
    if n > 0 {
      InRange(n - 1, i);
    }
  }

  lemma {:induction false} RangeSize(n: nat)
    ensures |Range(n)| == n
  {
    if n > 0 {
      RangeSize(n - 1);
      InRange(n - 1, n - 1);
    }
  }

  lemma {:induction false} RangeGrows(m: nat, n: nat)
    requires m <= n
    ensures Range(m) <= Range(n)
  {
    if m < n {
      RangeGrows(m, n - 1);
    }
  }

  ghost function SetOf<T>(s: seq<T>): set<T> {
    set x | x in s
  }

  lemma {:induction false} SetOfSize<T>(s: seq<T>)
    ensures |SetOf(s)| <= |s|
    ensures NoDup(s) ==> |SetOf(s)| == |s|
  {
    if s != [] {
      var last := |s| - 1;
      SetOfSize(s[..last]);
      assert SetOf(s) == SetOf(s[..last]) + {s[last]};
    }
  }

  /** A bag over n kinds with at most `bound` of each. */
  lemma {:induction false} BoundedMultiplicity<T>(m: multiset<T>, kinds: seq<T>, bound: nat)
    requires forall x :: x in m ==> x in kinds && m[x] <= bound
    ensures |m| <= bound * |kinds|
  {
    if kinds == [] {
      assert forall x :: x !in m;
      assert m == multiset{};
    } else {
      var k := kinds[0];
      DropKind(m, k);
      forall x | x in m[k := 0]
        ensures x in kinds[1..] && m[k := 0][x] <= bound
      {
        assert x in m && x != k;
      }
      BoundedMultiplicity(m[k := 0], kinds[1..], bound);
      OneMore(bound, |kinds| - 1);
      assert m[k] == 0 || k in m;
    }
  }

  lemma DropKind<T>(m: multiset<T>, k: T)
    ensures |m[k := 0]| + m[k] == |m|
    ensures forall x :: x in m[k := 0] ==> x in m && x != k && m[k := 0][x] == m[x]
  {
  }

  lemma OneMore(a: nat, n: nat)
    ensures a * (n + 1) == a + a * n
  {
  }

  lemma Regroup<T>(a: set<T>, x: T, rest: set<T>, all: set<T>)
    requires all == {x} + rest
    ensures a + {x} + rest == a + all
  {
  }
}
