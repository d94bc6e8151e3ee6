/** XOR distance between hex ids, the k closest peers, and the routing table. */
module Routing {
  import opened Primitives
  import opened Sorting
  import opened Finite

  // ---- Hex ids ----

  function HexDigit(c: char): Option<nat> {
    if '0' <= c <= '9' then Some(c as int - '0' as int)
    else if 'a' <= c <= 'f' then Some(c as int - 'a' as int + 10)
    else if 'A' <= c <= 'F' then Some(c as int - 'A' as int + 10)
    else None
  }

  predicate AllHexDigits(s: string) {
    forall i :: 0 <= i < |s| ==> HexDigit(s[i]).Some?
  }

  function HexValue(s: string): nat
    requires AllHexDigits(s)
  {
    if s == [] then 0 else 16 * HexValue(s[..|s| - 1]) + HexDigit(s[|s| - 1]).value
  }

  /** `int(s, 16)` on plain digits; anything else raises. */
  function ParseHex(s: string): Option<nat> {
    if s != [] && AllHexDigits(s) then Some(HexValue(s)) else None
  }

  /** Four bits a digit: a 40-digit node id is below 2^160. */
  lemma {:induction false} HexFitsBits(s: string)
    requires AllHexDigits(s)
    ensures HexValue(s) < Pow2(4 * |s|)
  {
    if s != [] {
      HexFitsBits(s[..|s| - 1]);
      FourMoreBits(4 * (|s| - 1));
    }
  }

  // ---- What a hex id means ----

  /** The sixteen digits, in both cases. */
  lemma DigitValues()
    ensures forall c :: '0' <= c <= '9' ==> ParseHex([c]) == Some(c as int - '0' as int)
    ensures ParseHex(['a']) == Some(10) && ParseHex(['b']) == Some(11) && ParseHex(['c']) == Some(12)
    ensures ParseHex(['d']) == Some(13) && ParseHex(['e']) == Some(14) && ParseHex(['f']) == Some(15)
    ensures ParseHex(['A']) == Some(10) && ParseHex(['B']) == Some(11) && ParseHex(['C']) == Some(12)
    ensures ParseHex(['D']) == Some(13) && ParseHex(['E']) == Some(14) && ParseHex(['F']) == Some(15)
  {
    forall c | HexDigit(c).Some?
      ensures ParseHex([c]) == HexDigit(c)
    {
      OneDigit(c);
    }
  }

  lemma OneDigit(c: char)
    requires HexDigit(c).Some?
    ensures ParseHex([c]) == HexDigit(c)
  {
    var s := [c];
    assert AllHexDigits(s) && s[..|s| - 1] == [];
    assert HexValue(s) == 16 * HexValue([]) + HexDigit(c).value;
  }

  lemma {:induction false} HexValueOfConcat(a: string, b: string)
    requires AllHexDigits(a) && AllHexDigits(b)
    ensures AllHexDigits(a + b) && HexValue(a + b) == HexValue(a) * Pow2(4 * |b|) + HexValue(b)
  {
    assert AllHexDigits(a + b);
    if b == [] {
      assert a + b == a;
    } else {
      var m := |b| - 1;
      HexValueOfConcat(a, b[..m]);
      assert (a + b)[..|a + b| - 1] == a + b[..m] && (a + b)[|a + b| - 1] == b[m];
      FourMoreBits(4 * m);
      TimesSixteen(HexValue(a), Pow2(4 * m));
    }
  }

  lemma FourMoreBits(n: nat)
    ensures Pow2(n + 4) == 16 * Pow2(n)
  {
    assert Pow2(n + 4) == 2 * Pow2(n + 3) == 4 * Pow2(n + 2) == 8 * Pow2(n + 1);
  }

  lemma TimesSixteen(x: nat, y: nat)
    ensures x * (16 * y) == 16 * (x * y)
  {
  }

  /** The more significant digits come first: appending shifts by four bits a digit. Only digits,
      and at least one, parse. */
  lemma ParseHexOfConcat(a: string, b: string)
    requires ParseHex(a).Some? && ParseHex(b).Some?
    ensures ParseHex(a + b) == Some(ParseHex(a).value * Pow2(4 * |b|) + ParseHex(b).value)
    ensures ParseHex("") == None
  {
    HexValueOfConcat(a, b);
  }

  /** An id parses exactly when it is not empty and each of its characters is a digit. */
  lemma {:induction false} ParseHexIsTotalOnDigits(s: string)
    ensures ParseHex(s).Some? <==> s != [] && forall i :: 0 <= i < |s| ==>
              '0' <= s[i] <= '9' || 'a' <= s[i] <= 'f' || 'A' <= s[i] <= 'F'
  {
  }

  lemma HighDigitWins(c: nat, d: nat, w: nat, x: nat, y: nat)
    requires c < d && x < w
    ensures c * w + x < d * w + y
  {
    assert (c + 1) * w <= d * w;
  }

  /** Between ids of equal length the first differing digit decides the order. */
  lemma FirstDifferenceDecides(prefix: string, c: char, d: char, x: string, y: string)
    requires AllHexDigits(prefix) && HexDigit(c).Some? && HexDigit(d).Some?
    requires AllHexDigits(x) && AllHexDigits(y) && |x| == |y| && HexDigit(c).value < HexDigit(d).value
    ensures ParseHex(prefix + ([c] + x)).Some? && ParseHex(prefix + ([d] + y)).Some?
    ensures ParseHex(prefix + ([c] + x)).value < ParseHex(prefix + ([d] + y)).value
  {
    OneDigit(c);
    OneDigit(d);
    HexValueOfConcat([c], x);
    HexValueOfConcat([d], y);
    HexValueOfConcat(prefix, [c] + x);
    HexValueOfConcat(prefix, [d] + y);
    HexFitsBits(x);
    HighDigitWins(HexDigit(c).value, HexDigit(d).value, Pow2(4 * |x|), HexValue(x), HexValue(y));
  }

  lemma {:induction false} Pow2Monotone(m: nat, n: nat)
    requires m <= n
    ensures Pow2(m) <= Pow2(n)
  {
    if m < n {
      Pow2Monotone(m, n - 1);
    }
  }

  // ---- XOR ----

  function Xor(a: nat, b: nat): nat
    decreases a + b
  {
    if a == 0 && b == 0 then 0
    else 2 * Xor(a / 2, b / 2) + (if a % 2 == b % 2 then 0 else 1)
  }

  lemma {:induction false} XorZeroIffEqual(a: nat, b: nat)
    ensures Xor(a, b) == 0 <==> a == b
    decreases a + b
  {
    if a != 0 || b != 0 {
      XorZeroIffEqual(a / 2, b / 2);
    }
  }

  lemma {:induction false} XorSymmetric(a: nat, b: nat)
    ensures Xor(a, b) == Xor(b, a)
    decreases a + b
  {
    if a != 0 || b != 0 {
      XorSymmetric(a / 2, b / 2);
    }
  }

  lemma {:induction false} XorTriangle(a: nat, b: nat, c: nat)
    ensures Xor(a, c) <= Xor(a, b) + Xor(b, c)
    decreases a + b + c
  {
    if a != 0 || b != 0 || c != 0 {
      XorTriangle(a / 2, b / 2, c / 2);
    }
  }

  lemma {:induction false} XorUndoesItself(a: nat, d: nat)
    ensures Xor(a, Xor(a, d)) == d
    decreases a + d
  {
    if a != 0 || d != 0 {
      XorUndoesItself(a / 2, d / 2);
      assert Xor(a, d) / 2 == Xor(a / 2, d / 2);
    }
  }

  /** At every distance from a target there is exactly one point. */
  lemma {:induction false} OnePointPerDistance(target: nat, d: nat, x: nat)
    ensures Xor(target, x) == d <==> x == Xor(target, d)
  {
    XorUndoesItself(target, d);
    XorUndoesItself(target, x);
  }

  /** The distance is a metric on the parsed ids. */
  lemma {:induction false} XorIsMetric(a: nat, b: nat, c: nat)
    ensures (Xor(a, b) == 0 <==> a == b) && Xor(a, b) == Xor(b, a) && Xor(a, c) <= Xor(a, b) + Xor(b, c)
  {
    XorZeroIffEqual(a, b);
    XorSymmetric(a, b);
    XorTriangle(a, b, c);
  }

  /** Bit n of a number. */
  function Bit(a: nat, n: nat): bool {
    if n == 0 then a % 2 == 1 else Bit(a / 2, n - 1)
  }

  /** Bit by bit, XOR says where the two numbers differ. */
  lemma {:induction false} XorComparesBits(a: nat, b: nat, n: nat)
    ensures Bit(Xor(a, b), n) <==> Bit(a, n) != Bit(b, n)
    decreases n
  {
    XorHalves(a, b, Xor(a, b), Xor(a / 2, b / 2));
    if n > 0 {
      XorComparesBits(a / 2, b / 2, n - 1);
    }
  }

  lemma XorHalves(a: nat, b: nat, x: nat, half: nat)
    requires x == Xor(a, b) && half == Xor(a / 2, b / 2)
    ensures x / 2 == half && x % 2 == if a % 2 == b % 2 then 0 else 1
  {
    XorUnfolds(a, b);
  }

  /** The number formed by the low n bits. */
  function LowBits(h: nat, n: nat): nat {
    if n == 0 then 0 else 2 * LowBits(h / 2, n - 1) + h % 2
  }

  /** The difference of two distances to n-bit points depends on the low n bits alone. */
  lemma {:induction false} DistanceDifferenceUsesLowBits(h: nat, h': nat, a: nat, b: nat, n: nat)
    requires a < Pow2(n) && b < Pow2(n) && LowBits(h, n) == LowBits(h', n)
    ensures Xor(h, a) - Xor(h, b) == Xor(h', a) - Xor(h', b)
    decreases n
  {
    if n > 0 {
      assert h % 2 == h' % 2;
      XorUnfolds(h, a);
      XorUnfolds(h, b);
      XorUnfolds(h', a);
      XorUnfolds(h', b);
      DistanceDifferenceUsesLowBits(h / 2, h' / 2, a / 2, b / 2, n - 1);
    }
  }

  lemma XorUnfolds(a: nat, b: nat)
    ensures Xor(a, b) == 2 * Xor(a / 2, b / 2) + (if a % 2 == b % 2 then 0 else 1)
  {
  }

  // ---- find_closest_peers ----

  type Ranked = (string, nat)

  const ByDistance: (Ranked, Ranked) -> bool := (a: Ranked, b: Ranked) => a.1 <= b.1

  function XorDistance(a: string, b: string): Option<nat> {
    if ParseHex(a).Some? && ParseHex(b).Some? then Some(Xor(ParseHex(a).value, ParseHex(b).value)) else None
  }

  /** Every peer with its distance; ids that do not parse are skipped. */
  function Distances(target: string, ids: seq<string>): seq<Ranked> {
    if ids == [] then []
    else
      match XorDistance(target, ids[0])
      case Some(d) => [(ids[0], d)] + Distances(target, ids[1..])
      case None => Distances(target, ids[1..])
  }

  function Closest(target: string, ids: seq<string>, k: int): seq<Ranked> {
    Take(Sort(ByDistance, Distances(target, ids)), k)
  }

  method FindClosestPeers(target: string, ids: seq<string>, k: int) returns (result: seq<Ranked>)
    ensures result == Closest(target, ids, k)
  {
    if ids == [] {
      return [];
    }
    var distances := [];
    for i := 0 to |ids|
      invariant distances + Distances(target, ids[i..]) == Distances(target, ids)
    {
      assert ids[i..][1..] == ids[i + 1..];
      match XorDistance(target, ids[i]) {
        case Some(d) =>
          assert distances + ([(ids[i], d)] + Distances(target, ids[i + 1..]))
              == (distances + [(ids[i], d)]) + Distances(target, ids[i + 1..]);
          distances := distances + [(ids[i], d)];
        case None =>
      }
    }
    assert distances + [] == distances;
    distances := Sort(ByDistance, distances);
    return Take(distances, k);
  }

  lemma {:induction false} DistancesMembers(target: string, ids: seq<string>, r: Ranked)
    ensures r in Distances(target, ids) <==> r.0 in ids && XorDistance(target, r.0) == Some(r.1)
  {
    if ids != [] {
      DistancesMembers(target, ids[1..], r);
      assert r.0 in ids <==> r.0 == ids[0] || r.0 in ids[1..];
    }
  }

  lemma {:induction false} DistancesKeepNoDup(target: string, ids: seq<string>)
    requires NoDup(ids)
    ensures NoDup(Distances(target, ids))
  {
    if ids != [] {
      DistancesKeepNoDup(target, ids[1..]);
      var rest := Distances(target, ids[1..]);
      forall i | 0 <= i < |rest|
        ensures rest[i].0 != ids[0]
      {
        DistancesMembers(target, ids[1..], rest[i]);
        assert ids[0] !in ids[1..];
      }
    }
  }

  function Parses(target: string): string -> bool {
    (id: string) => XorDistance(target, id).Some?
  }

  /** The ids that parse, together with the target. */
  function Rankable(target: string, ids: seq<string>): seq<string> {
    Filter(Parses(target), ids)
  }

  lemma {:induction false} DistancesCount(target: string, ids: seq<string>)
    ensures |Distances(target, ids)| == |Rankable(target, ids)|
  {
    if ids != [] {
      DistancesCount(target, ids[1..]);
    }
  }

  /** The result is sorted, holds min(k, rankable) true distances, and whatever is left out
      is no closer than anything returned. */
  lemma ClosestIsNearest(target: string, ids: seq<string>, k: nat)
    requires NoDup(ids)
    ensures var r := Closest(target, ids, k);
            && SortedBy(ByDistance, r) && NoDup(r)
            && |r| == (if k <= |Rankable(target, ids)| then k else |Rankable(target, ids)|)
            && (forall x :: x in r ==> x.0 in ids && XorDistance(target, x.0) == Some(x.1))
            && (forall id, x | id in ids && XorDistance(target, id).Some? && x in r ::
                  (id, XorDistance(target, id).value) in r || x.1 <= XorDistance(target, id).value)
  {
    var all := Distances(target, ids);
    var sorted := Sort(ByDistance, all);
    var r := Closest(target, ids, k);
    SortSorts(ByDistance, all);
    SortPermutes(ByDistance, all);
    DistancesCount(target, ids);
    DistancesKeepNoDup(target, ids);
    SortKeepsNoDup(ByDistance, all);
    forall x | x in r
      ensures x.0 in ids && XorDistance(target, x.0) == Some(x.1)
    {
      SortMember(ByDistance, all, x);
      DistancesMembers(target, ids, x);
    }
    forall id, x | id in ids && XorDistance(target, id).Some? && x in r
                   && (id, XorDistance(target, id).value) !in r
      ensures x.1 <= XorDistance(target, id).value
    {
      var y := (id, XorDistance(target, id).value);
      DistancesMembers(target, ids, y);
      SortMember(ByDistance, all, y);
      LeftOutIsLater(sorted, k, x, y);
    }
  }

  lemma LeftOutIsLater(sorted: seq<Ranked>, k: nat, x: Ranked, y: Ranked)
    requires SortedBy(ByDistance, sorted) && y in sorted && x in Take(sorted, k) && y !in Take(sorted, k)
    ensures x.1 <= y.1
  {
    var j :| 0 <= j < |sorted| && sorted[j] == y;
    var i :| 0 <= i < |Take(sorted, k)| && Take(sorted, k)[i] == x;
    assert forall m :: 0 <= m < |Take(sorted, k)| ==> Take(sorted, k)[m] == sorted[m];
    assert ByDistance(sorted[i], sorted[j]);
  }

  // ---- Only the low bits of the target rank the peers ----

  function Names(ranked: seq<Ranked>): seq<string> {
    seq(|ranked|, i requires 0 <= i < |ranked| => ranked[i].0)
  }

  ghost predicate SameLowBits(target: string, target': string, bits: nat) {
    && ParseHex(target).Some? && ParseHex(target').Some?
    && LowBits(ParseHex(target).value, bits) == LowBits(ParseHex(target').value, bits)
  }

  function Distance(target: string, id: string): nat {
    match XorDistance(target, id)
    case Some(d) => d
    case None => 0
  }

  function NearerTo(target: string): (string, string) -> bool {
    (a: string, b: string) => Distance(target, a) <= Distance(target, b)
  }

  ghost predicate TrueDistances(target: string, ranked: seq<Ranked>) {
    forall x :: x in ranked ==> x.1 == Distance(target, x.0)
  }

  lemma {:induction false} InsertByName(target: string, x: Ranked, ranked: seq<Ranked>)
    requires TrueDistances(target, ranked) && x.1 == Distance(target, x.0)
    ensures Names(Insert(ByDistance, x, ranked)) == Insert(NearerTo(target), x.0, Names(ranked))
  {
    if ranked != [] {
      assert ranked[0] in ranked;
      assert Names(ranked)[1..] == Names(ranked[1..]);
      if !ByDistance(x, ranked[0]) {
        InsertByName(target, x, ranked[1..]);
      }
    }
  }

  /** Ranking by distance is sorting the parseable ids by nearness. */
  lemma {:induction false} RankingByName(target: string, ids: seq<string>)
    ensures Names(Sort(ByDistance, Distances(target, ids))) == Sort(NearerTo(target), Rankable(target, ids))
    ensures TrueDistances(target, Sort(ByDistance, Distances(target, ids)))
  {
    var all := Distances(target, ids);
    forall x | x in Sort(ByDistance, all)
      ensures x.1 == Distance(target, x.0)
    {
      SortMember(ByDistance, all, x);
      DistancesMembers(target, ids, x);
    }
    if ids != [] {
      RankingByName(target, ids[1..]);
      if XorDistance(target, ids[0]).Some? {
        InsertByName(target, all[0], Sort(ByDistance, Distances(target, ids[1..])));
      }
    }
  }

  lemma {:induction false} RankableAgrees(target: string, target': string, ids: seq<string>)
    requires ParseHex(target).Some? && ParseHex(target').Some?
    ensures Rankable(target, ids) == Rankable(target', ids)
  {
    if ids != [] {
      RankableAgrees(target, target', ids[1..]);
    }
  }

  const NODE_ID_DIGITS := 40

  /** Against 160-bit node ids the ranking of a 256-bit chunk hash depends only on the low 160
      bits of the hash. */
  lemma RankingUsesLowBits(target: string, target': string, ids: seq<string>, k: int)
    requires SameLowBits(target, target', 4 * NODE_ID_DIGITS)
    requires forall id :: id in ids ==> |id| <= NODE_ID_DIGITS
    ensures Names(Closest(target, ids, k)) == Names(Closest(target', ids, k))
  {
    RankingByName(target, ids);
    RankingByName(target', ids);
    RankableAgrees(target, target', ids);
    var ranked := Rankable(target, ids);
    FilterMembers(Parses(target), ids);
    forall x, y | x in ranked && y in ranked
      ensures NearerTo(target)(x, y) == NearerTo(target')(x, y)
    {
      ShortIdIsSmall(x);
      ShortIdIsSmall(y);
      DistanceDifferenceUsesLowBits(ParseHex(target).value, ParseHex(target').value,
                                    ParseHex(x).value, ParseHex(y).value, 4 * NODE_ID_DIGITS);
    }
    SortAgrees(NearerTo(target), NearerTo(target'), ranked);
    NamesOfTake(Sort(ByDistance, Distances(target, ids)), k);
    NamesOfTake(Sort(ByDistance, Distances(target', ids)), k);
  }

  lemma ShortIdIsSmall(id: string)
    requires ParseHex(id).Some? && |id| <= NODE_ID_DIGITS
    ensures ParseHex(id).value < Pow2(4 * NODE_ID_DIGITS)
  {
    HexFitsBits(id);
    Pow2Monotone(4 * |id|, 4 * NODE_ID_DIGITS);
  }

  lemma NamesOfTake(ranked: seq<Ranked>, k: int)
    ensures Names(Take(ranked, k)) == Take(Names(ranked), k)
  {
  }

  // ---- Exactly which peers are the k closest ----

  /** x is nearer to the target than h, or as near and listed earlier. */
  ghost predicate IsAhead(target: string, ids: seq<string>, x: string, h: string) {
    && XorDistance(target, x).Some? && XorDistance(target, h).Some?
    && (XorDistance(target, x).value < XorDistance(target, h).value ||
        (XorDistance(target, x).value == XorDistance(target, h).value && Precedes(ids, x, h)))
  }

  ghost function Ahead(target: string, ids: seq<string>, h: string): set<string> {
    set x | x in ids && IsAhead(target, ids, x, h)
  }

  lemma ByNameIsNearest(target: string, ids: seq<string>, k: int)
    ensures Names(Closest(target, ids, k)) == Take(Sort(NearerTo(target), Rankable(target, ids)), k)
  {
    RankingByName(target, ids);
    NamesOfTake(Sort(ByDistance, Distances(target, ids)), k);
  }

  lemma NoDupFilter(keep: string -> bool, s: seq<string>)
    requires NoDup(s)
    ensures NoDup(Filter(keep, s))
  {
    FilterMembers(keep, s);
  }

  /** The ranking lists every rankable id, each after exactly those that are ahead of it. */
  lemma RankingOrders(target: string, ids: seq<string>, x: string, h: string)
    requires NoDup(ids)
    ensures var r := Sort(NearerTo(target), Rankable(target, ids));
            && NoDup(r) && (h in r <==> h in ids && XorDistance(target, h).Some?)
            && (h in r ==> (Precedes(r, x, h) <==> x in ids && x != h && IsAhead(target, ids, x, h)))
  {
    var rankable := Rankable(target, ids);
    var r := Sort(NearerTo(target), rankable);
    NoDupFilter(Parses(target), ids);
    FilterMembers(Parses(target), ids);
    SortKeepsNoDup(NearerTo(target), rankable);
    SortMember(NearerTo(target), rankable, h);
    SortMember(NearerTo(target), rankable, x);
    if h in r && x in r && x != h {
      SortOrders(NearerTo(target), rankable, x, h);
      FilterKeepsOrder(Parses(target), ids, x, h);
    }
  }

  /** An id is among the k closest if and only if it ranks and fewer than k are ahead of it; the
      result lists them in that order. */
  lemma ClosestHaveFewAhead(target: string, ids: seq<string>, k: nat, h: string)
    requires NoDup(ids)
    ensures h in Names(Closest(target, ids, k)) <==>
            h in ids && XorDistance(target, h).Some? && |Ahead(target, ids, h)| < k
  {
    var r := Sort(NearerTo(target), Rankable(target, ids));
    ByNameIsNearest(target, ids, k);
    RankingOrders(target, ids, h, h);
    if h in r {
      var n :| 0 <= n < |r| && r[n] == h;
      forall x
        ensures x in Ahead(target, ids, h) <==> x in r[..n]
      {
        RankingOrders(target, ids, x, h);
        PrefixPrecedes(r, n, x);
      }
      assert Ahead(target, ids, h) == SetOf(r[..n]);
      SetOfSize(r[..n]);
      if h in Take(r, k) {
        var m :| 0 <= m < |Take(r, k)| && Take(r, k)[m] == h;
        assert r[m] == h && m == n;
      }
      if n < k {
        assert Take(r, k)[n] == h;
      }
    }
  }

  /** The result is in the order of nearness, with ties in the order of the ids. */
  lemma ClosestAreInOrder(target: string, ids: seq<string>, k: nat, x: string, h: string)
    requires NoDup(ids) && Precedes(Names(Closest(target, ids, k)), x, h)
    ensures IsAhead(target, ids, x, h)
  {
    var r := Sort(NearerTo(target), Rankable(target, ids));
    ByNameIsNearest(target, ids, k);
    var i, j :| 0 <= i < j < |Take(r, k)| && Take(r, k)[i] == x && Take(r, k)[j] == h;
    assert r[i] == x && r[j] == h;
    RankingOrders(target, ids, x, h);
  }

  // ---- The routing table ----

  /** On a duplicate-free list the peer is gone and every other entry keeps its place. */
  lemma {:induction false} RemoveFirstFilters(s: seq<string>, x: string)
    requires NoDup(s)
    ensures RemoveFirst(s, x) == Filter(y => y != x, s)
  {
    if s != [] {
      if s[0] == x {
        FilterKeepsAll(y => y != x, s[1..]);
      } else {
        RemoveFirstFilters(s[1..], x);
      }
    }
  }

  type Table = map<string, seq<string>>

  class RoutingTable {
    var table: Table

    constructor ()
      ensures table == map[]
    {
      table := map[];
    }

    method AssignChunk(chunkHash: string, peerIds: seq<string>)
      modifies this
      ensures table == old(table)[chunkHash := peerIds]
    {
      table := table[chunkHash := peerIds];
    }

    /** Drops the peer's first entry in every list; the chunks that lost it are reported. */
    method RemovePeerFromAll(peerId: string) returns (affected: set<string>)
      modifies this
      ensures table == map c | c in old(table) :: RemoveFirst(old(table)[c], peerId)
      ensures affected == set c | c in old(table) && peerId in old(table)[c]
    {
      affected := {};
      var before := table;
      var todo := table.Keys;
      while todo != {}
        invariant todo <= before.Keys == table.Keys
        invariant forall c :: c in before.Keys - todo ==> table[c] == RemoveFirst(before[c], peerId)
        invariant forall c :: c in todo ==> table[c] == before[c]
        invariant affected == set c | c in before.Keys - todo && peerId in before[c]
        decreases |todo|
      {
        var c :| c in todo;
        if peerId in table[c] {
          table := table[c := RemoveFirst(table[c], peerId)];
          affected := affected + {c};
        } else {
          RemoveFirstCutsOnce(table[c], peerId, []);
        }
        todo := todo - {c};
      }
    }
  }
}
