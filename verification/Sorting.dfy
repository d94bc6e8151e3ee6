/** The list operations that the source takes from its language, and what they promise: the
    stable sort is a sorted permutation that keeps the order of ties and is the only one, and
    filters, prefixes and removal of a first occurrence keep members, order and distinctness. */
module Sorting {

  ghost predicate TotalPreorder<T(!new)>(le: (T, T) -> bool) {
    && (forall a, b :: le(a, b) || le(b, a))
    && (forall a, b, c :: le(a, b) && le(b, c) ==> le(a, c))
  }

  ghost predicate SortedBy<T>(le: (T, T) -> bool, s: seq<T>) {
    forall i, j :: 0 <= i < j < |s| ==> le(s[i], s[j])
  }

  ghost predicate NoDup<T>(s: seq<T>) {
    forall i, j :: 0 <= i < j < |s| ==> s[i] != s[j]
  }

  function Indices(n: nat): seq<int> {
    seq(n, i => i)
  }

  function Insert<T>(le: (T, T) -> bool, x: T, s: seq<T>): seq<T> {
    if s == [] || le(x, s[0]) then [x] + s
    else [s[0]] + Insert(le, x, s[1..])
  }

  /** Stable: among equivalent elements the earlier one stays first. */
  function Sort<T>(le: (T, T) -> bool, s: seq<T>): seq<T> {
    if s == [] then [] else Insert(le, s[0], Sort(le, s[1..]))
  }

  function Filter<T>(keep: T -> bool, s: seq<T>): seq<T> {
    if s == [] then []
    else if keep(s[0]) then [s[0]] + Filter(keep, s[1..])
    else Filter(keep, s[1..])
  }

  /** `xs.remove(x)`, or the list itself when x is not in it. */
  function RemoveFirst<T(==)>(s: seq<T>, x: T): seq<T> {
    if s == [] then [] else if s[0] == x then s[1..] else [s[0]] + RemoveFirst(s[1..], x)
  }

  /** Only the first of several occurrences goes; without one the list stays. */
  lemma {:induction false} RemoveFirstCutsOnce<T>(a: seq<T>, x: T, b: seq<T>)
    requires x !in a
    ensures RemoveFirst(a + ([x] + b), x) == a + b
    ensures RemoveFirst(a, x) == a
    decreases |a|
  {
    if a == [] {
      assert a + ([x] + b) == [x] + b && a + b == b;
    } else {
      assert a[0] in a && (a + ([x] + b))[1..] == a[1..] + ([x] + b);
      RemoveFirstCutsOnce(a[1..], x, b);
      assert a + b == [a[0]] + (a[1..] + b);
    }
  }

  /** `xs[:k]` with the language's reading of a negative bound. */
  function Take<T>(s: seq<T>, k: int): seq<T> {
    if k >= |s| then s
    else if k >= 0 then s[..k]
    else if |s| + k >= 0 then s[..|s| + k]
    else []
  }

  lemma {:induction false} InsertPermutes<T>(le: (T, T) -> bool, x: T, s: seq<T>)
    ensures multiset(Insert(le, x, s)) == multiset(s) + multiset{x}
  {
    if s == [] || le(x, s[0]) {
    } else {
      InsertPermutes(le, x, s[1..]);
      assert s == [s[0]] + s[1..];
    }
  }

  lemma {:induction false} SortPermutes<T>(le: (T, T) -> bool, s: seq<T>)
    ensures multiset(Sort(le, s)) == multiset(s)
    ensures |Sort(le, s)| == |s|
  {
    if s != [] {
      SortPermutes(le, s[1..]);
      InsertPermutes(le, s[0], Sort(le, s[1..]));
      assert s == [s[0]] + s[1..];
    }
    assert |multiset(Sort(le, s))| == |multiset(s)|;
  }

  lemma SortMember<T>(le: (T, T) -> bool, s: seq<T>, x: T)
    ensures x in Sort(le, s) <==> x in s
  {
    SortPermutes(le, s);
    assert x in Sort(le, s) <==> x in multiset(Sort(le, s));
  }

  lemma {:induction false} InsertSorts<T(!new)>(le: (T, T) -> bool, x: T, s: seq<T>)
    requires TotalPreorder(le) && SortedBy(le, s)
    ensures SortedBy(le, Insert(le, x, s))
  {
    if s == [] {
    } else if le(x, s[0]) {
      assert forall j :: 0 < j < |s| ==> le(x, s[j]);
    } else {
      var t := Insert(le, x, s[1..]);
      InsertSorts(le, x, s[1..]);
      InsertPermutes(le, x, s[1..]);
      forall j | 0 <= j < |t|
        ensures le(s[0], t[j])
      {
        assert t[j] in multiset(t);
        assert t[j] == x || t[j] in s[1..];
      }
    }
  }

  lemma {:induction false} SortSorts<T(!new)>(le: (T, T) -> bool, s: seq<T>)
    requires TotalPreorder(le)
    ensures SortedBy(le, Sort(le, s))
  {
    if s != [] {
      SortSorts(le, s[1..]);
      InsertSorts(le, s[0], Sort(le, s[1..]));
    }
  }

  lemma HeadOfArrangement<T(!new)>(le: (T, T) -> bool, a: seq<T>, x: T)
    requires TotalPreorder(le) && SortedBy(le, a) && x in multiset(a)
    ensures a != [] && le(a[0], x)
  {
    var i :| 0 <= i < |a| && a[i] == x;
  }

  lemma TailBag<T>(a: seq<T>)
    requires a != []
    ensures multiset(a[1..]) == multiset(a) - multiset{a[0]} && a == [a[0]] + a[1..]
  {
    assert a == [a[0]] + a[1..];
  }

  /** Two sorted arrangements of the same elements coincide when no two elements tie. */
  lemma {:induction false} SortedArrangementIsUnique<T(!new)>(le: (T, T) -> bool, a: seq<T>, b: seq<T>)
    requires TotalPreorder(le) && SortedBy(le, a) && SortedBy(le, b)
    requires multiset(a) == multiset(b)
    requires forall x, y :: x in multiset(a) && y in multiset(a) && le(x, y) && le(y, x) ==> x == y
    ensures a == b
  {
    if a != [] {
      assert a[0] in multiset(a);
      HeadOfArrangement(le, b, a[0]);
      HeadOfArrangement(le, a, b[0]);
      TailBag(a);
      TailBag(b);
      SortedArrangementIsUnique(le, a[1..], b[1..]);
    } else {
      assert |multiset(b)| == 0;
    }
  }

  lemma SortRecovers<T(!new)>(le: (T, T) -> bool, shuffled: seq<T>, original: seq<T>)
    requires TotalPreorder(le) && SortedBy(le, original)
    requires multiset(shuffled) == multiset(original)
    requires forall x, y :: x in original && y in original && le(x, y) && le(y, x) ==> x == y
    ensures Sort(le, shuffled) == original
  {
    SortPermutes(le, shuffled);
    SortSorts(le, shuffled);
    SortedArrangementIsUnique(le, original, Sort(le, shuffled));
  }

  lemma {:induction false} InsertAgrees<T>(le: (T, T) -> bool, le': (T, T) -> bool, x: T, s: seq<T>)
    requires forall y :: y in s ==> le(x, y) == le'(x, y)
    ensures Insert(le, x, s) == Insert(le', x, s)
  {
    if s != [] && !le(x, s[0]) {
      InsertAgrees(le, le', x, s[1..]);
    }
  }

  /** The sort looks only at comparisons between elements of the list. */
  lemma {:induction false} SortAgrees<T>(le: (T, T) -> bool, le': (T, T) -> bool, s: seq<T>)
    requires forall x, y :: x in s && y in s ==> le(x, y) == le'(x, y)
    ensures Sort(le, s) == Sort(le', s)
  {
    if s != [] {
      SortAgrees(le, le', s[1..]);
      assert s[0] in s;
      forall y | y in Sort(le, s[1..])
        ensures le(s[0], y) == le'(s[0], y)
      {
        SortMember(le, s[1..], y);
      }
      InsertAgrees(le, le', s[0], Sort(le, s[1..]));
    }
  }

  lemma {:induction false} NoDupFromMultiset<T>(a: seq<T>, b: seq<T>)
    requires multiset(a) == multiset(b) && NoDup(a)
    ensures NoDup(b)
  {
    forall i, j | 0 <= i < j < |b|
      ensures b[i] != b[j]
    {
      if b[i] == b[j] {
        assert b == b[..i] + [b[i]] + b[i + 1..j] + [b[j]] + b[j + 1..];
        assert multiset(b)[b[i]] >= 2;
        NoDupCount(a, b[i]);
      }
    }
  }

  lemma {:induction false} NoDupCount<T>(a: seq<T>, x: T)
    requires NoDup(a)
    ensures multiset(a)[x] <= 1
  {
    if a != [] {
      assert a == [a[0]] + a[1..];
      NoDupCount(a[1..], x);
      if a[0] == x {
        assert x !in a[1..];
      }
    }
  }

  lemma SortKeepsNoDup<T>(le: (T, T) -> bool, s: seq<T>)
    requires NoDup(s)
    ensures NoDup(Sort(le, s))
  {
    SortPermutes(le, s);
    NoDupFromMultiset(s, Sort(le, s));
  }

  lemma {:induction false} FilterMembers<T>(keep: T -> bool, s: seq<T>)
    ensures forall x :: x in Filter(keep, s) <==> x in s && keep(x)
    ensures NoDup(s) ==> NoDup(Filter(keep, s))
    ensures |Filter(keep, s)| <= |s|
  {
    if s != [] {
      FilterMembers(keep, s[1..]);
      assert s == [s[0]] + s[1..];
      if NoDup(s) {
        assert s[0] !in s[1..];
      }
    }
  }

  lemma {:induction false} FilterAgrees<T>(p: T -> bool, q: T -> bool, s: seq<T>)
    requires forall i :: 0 <= i < |s| ==> p(s[i]) == q(s[i])
    ensures Filter(p, s) == Filter(q, s)
  {
    if s != [] {
      FilterAgrees(p, q, s[1..]);
    }
  }

  lemma {:induction false} FilterConcat<T>(p: T -> bool, a: seq<T>, b: seq<T>)
    ensures Filter(p, a + b) == Filter(p, a) + Filter(p, b)
  {
    if a == [] {
      assert a + b == b;
    } else {
      assert (a + b)[1..] == a[1..] + b;
      FilterConcat(p, a[1..], b);
    }
  }

  function Both<T>(p: T -> bool, q: T -> bool): T -> bool {
    x => p(x) && q(x)
  }

  function Not<T>(p: T -> bool): T -> bool {
    x => !p(x)
  }

  /** Membership tests, named so that equal tests are equal terms. */
  function NotIn<T(==)>(list: seq<T>): T -> bool {
    x => x !in list
  }

  lemma {:induction false} FilterTwice<T>(p: T -> bool, q: T -> bool, s: seq<T>)
    ensures Filter(p, Filter(q, s)) == Filter(Both(q, p), s)
  {
    if s != [] {
      FilterTwice(p, q, s[1..]);
    }
  }

  lemma {:induction false} FilterPartition<T>(p: T -> bool, s: seq<T>)
    ensures |Filter(p, s)| + |Filter(Not(p), s)| == |s|
    ensures Filter(p, Filter(Not(p), s)) == []
  {
    if s != [] {
      FilterPartition(p, s[1..]);
    }
  }

  lemma {:induction false} FilterKeepsAll<T>(keep: T -> bool, s: seq<T>)
    requires forall i :: 0 <= i < |s| ==> keep(s[i])
    ensures Filter(keep, s) == s
  {
    if s != [] {
      FilterKeepsAll(keep, s[1..]);
    }
  }

  lemma {:induction false} FilterOfInsert<T(!new)>(le: (T, T) -> bool, p: T -> bool, x: T, s: seq<T>)
    requires TotalPreorder(le) && SortedBy(le, s)
    ensures Filter(p, Insert(le, x, s)) == if p(x) then Insert(le, x, Filter(p, s)) else Filter(p, s)
  {
    if s == [] {
    } else if le(x, s[0]) {
      assert ([x] + s)[1..] == s;
      if p(x) {
        InsertBeforeAll(le, x, Filter(p, s)) by {
          FilterMembers(p, s);
        }
      }
    } else {
      FilterOfInsert(le, p, x, s[1..]);
      assert ([s[0]] + Insert(le, x, s[1..]))[1..] == Insert(le, x, s[1..]);
    }
  }

  lemma InsertBeforeAll<T>(le: (T, T) -> bool, x: T, s: seq<T>)
    requires forall y :: y in s ==> le(x, y)
    ensures Insert(le, x, s) == [x] + s
  {
  }

  /** A stable sort and a filter commute. */
  lemma {:induction false} SortCommutesWithFilter<T(!new)>(le: (T, T) -> bool, p: T -> bool, s: seq<T>)
    requires TotalPreorder(le)
    ensures Sort(le, Filter(p, s)) == Filter(p, Sort(le, s))
  {
    if s != [] {
      SortCommutesWithFilter(le, p, s[1..]);
      SortSorts(le, s[1..]);
      FilterOfInsert(le, p, s[0], Sort(le, s[1..]));
      if p(s[0]) {
        assert ([s[0]] + Filter(p, s[1..]))[1..] == Filter(p, s[1..]);
      }
    }
  }

  function TiedWith<T(!new)>(le: (T, T) -> bool, y: T): T -> bool {
    (x: T) => le(x, y) && le(y, x)
  }

  lemma {:induction false} SortOfTies<T(!new)>(le: (T, T) -> bool, s: seq<T>)
    requires forall x, y :: x in s && y in s ==> le(x, y)
    ensures Sort(le, s) == s
  {
    if s != [] {
      SortOfTies(le, s[1..]);
      assert s == [s[0]] + s[1..];
    }
  }

  /** The sort is stable: elements that are tied with each other keep their order. */
  lemma SortIsStable<T(!new)>(le: (T, T) -> bool, s: seq<T>, y: T)
    requires TotalPreorder(le)
    ensures Filter(TiedWith(le, y), Sort(le, s)) == Filter(TiedWith(le, y), s)
  {
    var ties := Filter(TiedWith(le, y), s);
    SortCommutesWithFilter(le, TiedWith(le, y), s);
    FilterMembers(TiedWith(le, y), s);
    SortOfTies(le, ties);
  }

  /** One element comes before another. */
  ghost predicate Precedes<T>(s: seq<T>, x: T, y: T) {
    exists i, j :: 0 <= i < j < |s| && s[i] == x && s[j] == y
  }

  lemma PrecedesCons<T>(head: T, tail: seq<T>, x: T, y: T)
    ensures Precedes([head] + tail, x, y) <==> (head == x && y in tail) || Precedes(tail, x, y)
  {
    var s := [head] + tail;
    if head == x && y in tail {
      var j :| 0 <= j < |tail| && tail[j] == y;
      assert s[0] == x && s[j + 1] == y;
    }
    if Precedes(tail, x, y) {
      var i, j :| 0 <= i < j < |tail| && tail[i] == x && tail[j] == y;
      assert s[i + 1] == x && s[j + 1] == y;
    }
    if Precedes(s, x, y) {
      var i, j :| 0 <= i < j < |s| && s[i] == x && s[j] == y;
      assert tail[j - 1] == y;
      if i > 0 {
        assert tail[i - 1] == x;
      }
    }
  }

  lemma {:induction false} FilterKeepsOrder<T>(p: T -> bool, s: seq<T>, x: T, y: T)
    ensures Precedes(Filter(p, s), x, y) <==> p(x) && p(y) && Precedes(s, x, y)
  {
    if s != [] {
      FilterKeepsOrder(p, s[1..], x, y);
      FilterMembers(p, s[1..]);
      assert s == [s[0]] + s[1..];
      PrecedesCons(s[0], s[1..], x, y);
      PrecedesCons(s[0], Filter(p, s[1..]), x, y);
    }
  }

  /** The order in a sorted list: by rank, and among ties by the order before. */
  lemma SortOrders<T(!new)>(le: (T, T) -> bool, s: seq<T>, x: T, y: T)
    requires TotalPreorder(le) && NoDup(s) && x in s && y in s && x != y
    ensures Precedes(Sort(le, s), x, y) <==> le(x, y) && (le(y, x) ==> Precedes(s, x, y))
  {
    var r := Sort(le, s);
    SortSorts(le, s);
    SortMember(le, s, x);
    SortMember(le, s, y);
    if le(x, y) && le(y, x) {
      SortIsStable(le, s, y);
      FilterKeepsOrder(TiedWith(le, y), r, x, y);
      FilterKeepsOrder(TiedWith(le, y), s, x, y);
    } else if Precedes(r, x, y) {
      var i, j :| 0 <= i < j < |r| && r[i] == x && r[j] == y;
    } else {
      var i :| 0 <= i < |r| && r[i] == x;
      var j :| 0 <= j < |r| && r[j] == y;
      assert i > j;
      assert le(r[j], r[i]);
    }
  }

  /** In a duplicate-free list the elements before a position are those that precede it. */
  lemma PrefixPrecedes<T>(s: seq<T>, n: nat, x: T)
    requires NoDup(s) && n < |s|
    ensures x in s[..n] <==> Precedes(s, x, s[n])
  {
    if x in s[..n] {
      var i :| 0 <= i < n && s[..n][i] == x;
      assert s[i] == x;
    }
    if Precedes(s, x, s[n]) {
      var i, j :| 0 <= i < j < |s| && s[i] == x && s[j] == s[n];
      assert s[..n][i] == x;
    }
  }
}
