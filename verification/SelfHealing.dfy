/** One healing pass over the routing table: dead holders of under-replicated chunks are
    dropped and the nearest other alive peers take their place. */
module SelfHealing {
  import opened Primitives
  import opened Sorting
  import opened Routing
  import Replication
  import Selector

  type Send = Replication.Send

  function IsAlive(alive: seq<string>, self: string): string -> bool {
    (h: string) => h in alive || h == self
  }

  function AliveHolders(holders: seq<string>, alive: seq<string>, self: string): seq<string> {
    Filter(IsAlive(alive, self), holders)
  }

  function Candidates(alive: seq<string>, holders: seq<string>): seq<string> {
    Filter(NotIn(holders), alive)
  }

  function NewTargets(chunkHash: string, alive: seq<string>, holders: seq<string>, needed: int): seq<string> {
    Names(Closest(chunkHash, Candidates(alive, holders), needed))
  }

  /** An under-replicated chunk's alive holders, topped up if this node has the data. */
  function ToppedUp(chunkHash: string, living: seq<string>, alive: seq<string>, k: int, local: bool,
                    sends: Send): seq<string> {
    if !local then living
    else living + Filter(Replication.Accepts(sends, chunkHash), NewTargets(chunkHash, alive, living, k - |living|))
  }

  /** The holders of one chunk after a pass. */
  function Healed(chunkHash: string, holders: seq<string>, alive: seq<string>, self: string, k: int, local: bool,
                  sends: Send): seq<string>
  {
    var living := AliveHolders(holders, alive, self);
    if |living| >= k then holders else ToppedUp(chunkHash, living, alive, k, local, sends)
  }

  function HealedTable(table: Table, alive: seq<string>, self: string, k: int, store: set<string>, sends: Send): Table {
    map c | c in table :: Healed(c, table[c], alive, self, k, c in store, sends)
  }

  /** A chunk's list between the two loops of a pass. */
  function PrunedHolders(holders: seq<string>, alive: seq<string>, self: string, k: int): seq<string> {
    var living := AliveHolders(holders, alive, self);
    if |living| >= k then holders else living
  }

  predicate IsUnder(holders: seq<string>, alive: seq<string>, self: string, k: int) {
    |AliveHolders(holders, alive, self)| < k
  }

  type Entry = (string, seq<string>)

  function Chunks(under: seq<Entry>): set<string> {
    set e | e in under :: e.0
  }

  /** Each under-replicated chunk among the given ones, once, with its alive holders. */
  ghost predicate ListsUnder(under: seq<Entry>, table: Table, among: set<string>, alive: seq<string>, self: string,
                             k: int) {
    var lists :=
      && (forall e :: e in under ==> e.0 in table && e.1 == AliveHolders(table[e.0], alive, self) && |e.1| < k)
      && (forall i, j :: 0 <= i < j < |under| ==> under[i].0 != under[j].0)
      && Chunks(under) == set c | c in among && c in table && IsUnder(table[c], alive, self, k);
    lists
  }

  /** The table in the middle of the first loop. */
  function PrunedAmong(table: Table, among: set<string>, alive: seq<string>, self: string, k: int): Table {
    map c | c in table :: if c in among then PrunedHolders(table[c], alive, self, k) else table[c]
  }

  /** The first loop has visited the given chunks. */
  ghost predicate Scanned(now: Table, under: seq<Entry>, table: Table, among: set<string>, alive: seq<string>,
                          self: string, k: int)
  {
    now == PrunedAmong(table, among, alive, self, k) && ListsUnder(under, table, among, alive, self, k)
  }

  lemma ScanStarts(table: Table, alive: seq<string>, self: string, k: int)
    ensures Scanned(table, [], table, table.Keys - table.Keys, alive, self, k)
  {
    assert Chunks([]) == {};
  }

  lemma ScanContinues(now: Table, under: seq<Entry>, table: Table, among: set<string>, alive: seq<string>, self: string,
                      k: int, c: string)
    requires Scanned(now, under, table, among, alive, self, k) && c in table && c !in among
    ensures var living := AliveHolders(table[c], alive, self);
            if |living| < k then Scanned(now[c := living], under + [(c, living)], table, among + {c}, alive, self, k)
            else Scanned(now, under, table, among + {c}, alive, self, k)
  {
    UnderGrows(under, table, among, alive, self, k, c);
    PruningGrows(table, among, alive, self, k, c);
  }

  /** The second loop as a fold. */
  function ToppedTable(table: Table, under: seq<Entry>, alive: seq<string>, k: int, store: set<string>,
                       sends: Send): Table
    decreases |under|
  {
    if under == [] then table
    else
      var (c, living) := under[0];
      ToppedTable(table[c := ToppedUp(c, living, alive, k, c in store, sends)], under[1..], alive, k, store, sends)
  }

  class SelfHealingManager {
    const routing: RoutingTable
    const self: string
    const k: int

    constructor (routing: RoutingTable, self: string, k: int)
      ensures this.routing == routing && this.self == self && this.k == k
    {
      this.routing, this.self, this.k := routing, self, k;
    }

    method CheckAndHeal(alive: seq<string>, store: set<string>, sends: Send)
      modifies routing
      ensures routing.table == HealedTable(old(routing.table), alive, self, k, store, sends)
    {
      ghost var before := routing.table;
      var underReplicated := FindUnderReplicated(alive);
      PassIsHealedTable(before, underReplicated, alive, self, k, store, sends);
      if underReplicated == [] {
        return;
      }
      HealAll(underReplicated, alive, store, sends);
    }

    method FindUnderReplicated(alive: seq<string>) returns (under: seq<Entry>)
      modifies routing
      ensures routing.table == PrunedAmong(old(routing.table), old(routing.table).Keys, alive, self, k)
      ensures ListsUnder(under, old(routing.table), old(routing.table).Keys, alive, self, k)
    {
      under := [];
      var snapshot := routing.table;
      var todo := snapshot.Keys;
      ScanStarts(snapshot, alive, self, k);
      while todo != {}
        invariant todo <= snapshot.Keys
        invariant Scanned(routing.table, under, snapshot, snapshot.Keys - todo, alive, self, k)
        decreases |todo|
      {
        var c :| c in todo;
        var living := AliveHolders(snapshot[c], alive, self);
        ScanContinues(routing.table, under, snapshot, snapshot.Keys - todo, alive, self, k, c);
        assert snapshot.Keys - (todo - {c}) == (snapshot.Keys - todo) + {c};
        todo := todo - {c};
        if |living| < k {
          under := under + [(c, living)];
          routing.AssignChunk(c, living);
        }
      }
      assert snapshot.Keys - todo == snapshot.Keys;
    }

    method HealAll(under: seq<Entry>, alive: seq<string>, store: set<string>, sends: Send)
      requires forall e :: e in under ==> |e.1| < k && e.0 in routing.table && routing.table[e.0] == e.1
      requires forall i, j :: 0 <= i < j < |under| ==> under[i].0 != under[j].0
      modifies routing
      ensures routing.table == ToppedTable(old(routing.table), under, alive, k, store, sends)
    {
      for n := 0 to |under|
        invariant forall i :: n <= i < |under| ==>
                  under[i].0 in routing.table && routing.table[under[i].0] == under[i].1
        invariant ToppedTable(routing.table, under[n..], alive, k, store, sends) ==
                  ToppedTable(old(routing.table), under, alive, k, store, sends)
      {
        assert under[n] in under && under[n..][1..] == under[n + 1..];
        HealChunk(under[n].0, under[n].1, alive, under[n].0 in store, sends);
      }
    }

    method HealChunk(chunkHash: string, living: seq<string>, alive: seq<string>, local: bool, sends: Send)
      requires |living| < k && chunkHash in routing.table && routing.table[chunkHash] == living
      modifies routing
      ensures routing.table == old(routing.table)[chunkHash := ToppedUp(chunkHash, living, alive, k, local, sends)]
    {
      if !local {
        return;
      }
      var candidates := Candidates(alive, living);
      if candidates == [] {
        assert living + [] == living;
        return;
      }
      var closest := FindClosestPeers(chunkHash, candidates, k - |living|);
      var added := Replication.SendToTargets(chunkHash, Names(closest), sends);
      routing.AssignChunk(chunkHash, living + added);
    }
  }

  lemma PruningGrows(table: Table, among: set<string>, alive: seq<string>, self: string, k: int, c: string)
    requires c in table && c !in among
    ensures PrunedAmong(table, among + {c}, alive, self, k) ==
            if IsUnder(table[c], alive, self, k)
            then PrunedAmong(table, among, alive, self, k)[c := AliveHolders(table[c], alive, self)]
            else PrunedAmong(table, among, alive, self, k)
  {
  }

  /** The fold tops up exactly the listed chunks. */
  lemma {:induction false} ToppedTableAt(table: Table, under: seq<Entry>, alive: seq<string>, k: int,
                                         store: set<string>,
                                         sends: Send, c: string)
    requires c in table && (forall e :: e in under ==> e.0 in table)
    requires forall i, j :: 0 <= i < j < |under| ==> under[i].0 != under[j].0
    ensures var t := ToppedTable(table, under, alive, k, store, sends);
            && t.Keys == table.Keys
            && (c !in Chunks(under) ==> t[c] == table[c])
            && (forall e :: e in under && e.0 == c ==> t[c] == ToppedUp(c, e.1, alive, k, c in store, sends))
    decreases |under|
  {
    if under != [] {
      var e0, rest := under[0], under[1..];
      var next := table[e0.0 := ToppedUp(e0.0, e0.1, alive, k, e0.0 in store, sends)];
      assert under == [e0] + rest && e0 in under;
      assert next.Keys == table.Keys;
      forall e | e in rest
        ensures e in under && e.0 != e0.0
      {
        var i :| 0 <= i < |rest| && rest[i] == e;
        assert under[i + 1] == e;
      }
      ToppedTableAt(next, rest, alive, k, store, sends, c);
      assert c in Chunks(rest) ==> c in Chunks(under);
    }
  }

  lemma PassIsHealedTable(before: Table, under: seq<Entry>, alive: seq<string>, self: string, k: int,
                          store: set<string>,
                          sends: Send)
    requires ListsUnder(under, before, before.Keys, alive, self, k)
    ensures ToppedTable(PrunedAmong(before, before.Keys, alive, self, k), under, alive, k, store, sends) ==
            HealedTable(before, alive, self, k, store, sends)
    ensures forall e :: e in under ==> PrunedHolders(before[e.0], alive, self, k) == e.1
  {
    var pruned := PrunedAmong(before, before.Keys, alive, self, k);
    var t := ToppedTable(pruned, under, alive, k, store, sends);
    forall c | c in before
      ensures t.Keys == before.Keys && t[c] == Healed(c, before[c], alive, self, k, c in store, sends)
    {
      ToppedTableAt(pruned, under, alive, k, store, sends, c);
      if c in Chunks(under) {
        var e :| e in under && e.0 == c;
      }
    }
    assert t.Keys == before.Keys by {
      if before == map[] {
        assert pruned == map[] && Chunks(under) == {};
        assert forall e :: e in under ==> e.0 in Chunks(under);
      }
    }
  }

  lemma ChunksGrow(under: seq<Entry>, e: Entry)
    ensures Chunks(under + [e]) == Chunks(under) + {e.0}
  {
    assert e in under + [e];
    forall c
      ensures c in Chunks(under + [e]) <==> c in Chunks(under) + {e.0}
    {
      if c in Chunks(under) {
        var x :| x in under && x.0 == c;
        assert x in under + [e];
      }
    }
  }

  lemma UnderGrows(under: seq<Entry>, table: Table, among: set<string>, alive: seq<string>, self: string, k: int,
                   c: string)
    requires ListsUnder(under, table, among, alive, self, k) && c in table && c !in among
    ensures IsUnder(table[c], alive, self, k) ==>
              ListsUnder(under + [(c, AliveHolders(table[c], alive, self))], table, among + {c}, alive, self, k)
    ensures !IsUnder(table[c], alive, self, k) ==> ListsUnder(under, table, among + {c}, alive, self, k)
  {
    var e := (c, AliveHolders(table[c], alive, self));
    ChunksGrow(under, e);
    forall i | 0 <= i < |under|
      ensures under[i].0 != c
    {
      assert under[i].0 in Chunks(under);
    }
  }

  // ---- One pass ----

  lemma NewTargetsAreOthers(chunkHash: string, alive: seq<string>, holders: seq<string>, needed: nat)
    requires NoDup(alive)
    ensures var t := NewTargets(chunkHash, alive, holders, needed);
            && NoDup(t) && (forall id :: id in t ==> id in alive && id !in holders)
            && |t| == (var n := |Rankable(chunkHash, Candidates(alive, holders))|; if needed <= n then needed else n)
  {
    var candidates := Candidates(alive, holders);
    FilterMembers(NotIn(holders), alive);
    ClosestIsNearest(chunkHash, candidates, needed);
    var r := Closest(chunkHash, candidates, needed);
    assert forall i :: 0 <= i < |r| ==> r[i] in r;
  }

  /** A pass keeps every alive holder in place, keeps lists duplicate-free, leaves chunks with
      k alive holders alone, and never raises an under-replicated chunk above k. */
  lemma HealingIsConservative(chunkHash: string, holders: seq<string>, alive: seq<string>, self: string, k: int,
                              local: bool, sends: Send)
    requires NoDup(alive)
    ensures var living := AliveHolders(holders, alive, self);
            var healed := Healed(chunkHash, holders, alive, self, k, local, sends);
            && (forall h :: h in living ==> h in healed)
            && (NoDup(holders) ==> NoDup(healed))
            && (|living| >= k ==> healed == holders)
            && (|living| < k ==> living <= healed && |healed| <= k)
            && (|living| < k ==> forall h :: h in healed ==> h in alive || h == self)
  {
    var living := AliveHolders(holders, alive, self);
    FilterMembers(IsAlive(alive, self), holders);
    if |living| < k && local {
      ToppingUpIsConservative(chunkHash, living, alive, k, sends);
    }
  }

  lemma ToppingUpIsConservative(chunkHash: string, living: seq<string>, alive: seq<string>, k: int, sends: Send)
    requires NoDup(alive) && |living| < k
    ensures var healed := ToppedUp(chunkHash, living, alive, k, true, sends);
            && living <= healed && |healed| <= k && (NoDup(living) ==> NoDup(healed))
            && forall h :: h in healed ==> h in living || h in alive
  {
    var t := NewTargets(chunkHash, alive, living, k - |living|);
    NewTargetsAreOthers(chunkHash, alive, living, k - |living|);
    FilterMembers(Replication.Accepts(sends, chunkHash), t);
    if NoDup(living) {
      ConcatKeepsNoDup(living, Filter(Replication.Accepts(sends, chunkHash), t));
    }
  }

  lemma ConcatKeepsNoDup(a: seq<string>, b: seq<string>)
    requires NoDup(a) && NoDup(b) && forall x :: x in b ==> x !in a
    ensures NoDup(a + b)
  {
    forall i, j | 0 <= i < j < |a + b|
      ensures (a + b)[i] != (a + b)[j]
    {
      if i < |a| <= j {
        assert b[j - |a|] in b;
      }
    }
  }

  /** For a locally stored chunk whose sends succeed, a pass ends with exactly
      min(k, alive holders + other alive peers that parse). */
  lemma HealingReachesTheFactor(chunkHash: string, holders: seq<string>, alive: seq<string>, self: string, k: int,
                                sends: Send)
    requires NoDup(alive) && (forall pid :: sends(chunkHash, pid))
    requires |AliveHolders(holders, alive, self)| < k
    ensures var living := AliveHolders(holders, alive, self);
            var others := |Rankable(chunkHash, Candidates(alive, living))|;
            |Healed(chunkHash, holders, alive, self, k, true, sends)| ==
            if |living| + others <= k then |living| + others else k
  {
    var living := AliveHolders(holders, alive, self);
    NewTargetsAreOthers(chunkHash, alive, living, k - |living|);
    FilterKeepsAll(Replication.Accepts(sends, chunkHash), NewTargets(chunkHash, alive, living, k - |living|));
  }

  // ---- Exactly who becomes a holder ----

  /** The other alive peers that are asked before h. */
  ghost function Rivals(chunkHash: string, alive: seq<string>, living: seq<string>, h: string): set<string> {
    set x | x in alive && x !in living && IsAhead(chunkHash, alive, x, h)
  }

  lemma AliveHoldersAre(holders: seq<string>, alive: seq<string>, self: string, h: string)
    ensures h in AliveHolders(holders, alive, self) <==> h in holders && (h in alive || h == self)
  {
    FilterMembers(IsAlive(alive, self), holders);
  }

  /** A peer is asked if and only if its id parses and fewer than `needed` others are ahead. */
  lemma AskedHaveFewRivals(chunkHash: string, alive: seq<string>, living: seq<string>, needed: nat, h: string)
    requires NoDup(alive)
    ensures h in NewTargets(chunkHash, alive, living, needed) <==>
            && h in alive && h !in living && ParseHex(chunkHash).Some? && ParseHex(h).Some?
            && |Rivals(chunkHash, alive, living, h)| < needed
  {
    var candidates := Candidates(alive, living);
    NoDupFilter(NotIn(living), alive);
    FilterMembers(NotIn(living), alive);
    ClosestHaveFewAhead(chunkHash, candidates, needed, h);
    if h in candidates {
      forall x
        ensures x in Ahead(chunkHash, candidates, h) <==> x in Rivals(chunkHash, alive, living, h)
      {
        FilterKeepsOrder(NotIn(living), alive, x, h);
      }
      assert Ahead(chunkHash, candidates, h) == Rivals(chunkHash, alive, living, h);
    }
  }

  /** For every outcome of the sends: an under-replicated chunk's holders after a pass are its
      alive holders and, if this node has the chunk, those of the nearest other alive peers, as
      many as are needed, to which the send succeeded. */
  lemma NewHoldersAcceptedTheChunk(chunkHash: string, holders: seq<string>, alive: seq<string>, self: string, k: int,
                                   local: bool, sends: Send, h: string)
    requires NoDup(alive) && |AliveHolders(holders, alive, self)| < k
    ensures var living := AliveHolders(holders, alive, self);
            h in Healed(chunkHash, holders, alive, self, k, local, sends) <==>
            || (h in holders && (h in alive || h == self))
            || (local && h in alive && ParseHex(chunkHash).Some? && ParseHex(h).Some? && sends(chunkHash, h)
                && |Rivals(chunkHash, alive, living, h)| < k - |living|)
  {
    var living := AliveHolders(holders, alive, self);
    AliveHoldersAre(holders, alive, self, h);
    AskedHaveFewRivals(chunkHash, alive, living, k - |living|, h);
    FilterMembers(Replication.Accepts(sends, chunkHash), NewTargets(chunkHash, alive, living, k - |living|));
  }

  /** No peer that was asked is farther from the chunk than one that was left unasked. */
  lemma NobodyNearerIsLeftUnasked(chunkHash: string, alive: seq<string>, living: seq<string>, needed: nat, a: string,
                                  u: string)
    requires NoDup(alive) && a in NewTargets(chunkHash, alive, living, needed)
    requires u in alive && u !in living && ParseHex(u).Some? && u !in NewTargets(chunkHash, alive, living, needed)
    ensures ParseHex(chunkHash).Some? && ParseHex(a).Some?
    ensures Xor(ParseHex(chunkHash).value, ParseHex(a).value) <= Xor(ParseHex(chunkHash).value, ParseHex(u).value)
  {
    AskedHaveFewRivals(chunkHash, alive, living, needed, a);
    var candidates := Candidates(alive, living);
    NoDupFilter(NotIn(living), alive);
    FilterMembers(NotIn(living), alive);
    ClosestIsNearest(chunkHash, candidates, needed);
    var r := Closest(chunkHash, candidates, needed);
    var i :| 0 <= i < |r| && Names(r)[i] == a;
    assert r[i] in r;
    RankedIsNamed(r, (u, XorDistance(chunkHash, u).value));
  }

  lemma RankedIsNamed(r: seq<Ranked>, x: Ranked)
    ensures x in r ==> x.0 in Names(r)
  {
    if x in r {
      var j :| 0 <= j < |r| && r[j] == x;
      assert Names(r)[j] == x.0;
    }
  }

  // ---- A second pass ----

  /** The parseable candidates of the second pass, nearest first: those of the first pass
      without the peers it added. */
  lemma SecondPassRanking(chunkHash: string, alive: seq<string>, living: seq<string>, added: seq<string>)
    ensures Sort(NearerTo(chunkHash), Rankable(chunkHash, Candidates(alive, living + added))) ==
            Filter(NotIn(added), Sort(NearerTo(chunkHash), Rankable(chunkHash, Candidates(alive, living))))
  {
    SecondPassCandidates(chunkHash, alive, living, added);
    SortCommutesWithFilter(NearerTo(chunkHash), NotIn(added), Rankable(chunkHash, Candidates(alive, living)));
  }

  lemma SecondPassCandidates(chunkHash: string, alive: seq<string>, living: seq<string>, added: seq<string>)
    ensures Rankable(chunkHash, Candidates(alive, living + added)) ==
            Filter(NotIn(added), Rankable(chunkHash, Candidates(alive, living)))
  {
    var parses := Parses(chunkHash);
    FilterTwice(parses, NotIn(living + added), alive);
    FilterTwice(parses, NotIn(living), alive);
    FilterTwice(NotIn(added), Both(NotIn(living), parses), alive);
    FilterAgrees(Both(NotIn(living + added), parses), Both(Both(NotIn(living), parses), NotIn(added)), alive);
  }

  /** What is left at the front of the ranking are the peers that refused, so a second pass
      that asks for as many as are missing asks only those. */
  lemma SecondPassAsksRefusers(ranked: seq<string>, needed: nat, accepts: string -> bool)
    requires NoDup(ranked)
    ensures var added := Filter(accepts, Take(ranked, needed));
            && |added| <= needed
            && Filter(accepts, Take(Filter(NotIn(added), ranked), needed - |added|)) == []
  {
    var first := Take(ranked, needed);
    var rest := ranked[|first|..];
    var added := Filter(accepts, first);
    var refused := Filter(Not(accepts), first);
    var left := Filter(NotIn(added), ranked);
    FilterPartition(accepts, first);
    assert left == refused + Filter(NotIn(added), rest) by {
      assert ranked == first + rest;
      FilterMembers(accepts, first);
      FilterConcat(NotIn(added), first, rest);
      FilterAgrees(NotIn(added), Not(accepts), first);
    }
    if |ranked| >= needed {
      assert |refused| == needed - |added|;
      TakePrefix(refused, Filter(NotIn(added), rest));
    } else {
      assert rest == [] && left == refused;
    }
  }

  lemma TakePrefix(a: seq<string>, b: seq<string>)
    ensures Take(a + b, |a|) == a
  {
    assert (a + b)[..|a|] == a;
  }

  lemma RankedIsDuplicateFree(chunkHash: string, alive: seq<string>, holders: seq<string>)
    requires NoDup(alive)
    ensures NoDup(Sort(NearerTo(chunkHash), Rankable(chunkHash, Candidates(alive, holders))))
  {
    FilterMembers(NotIn(holders), alive);
    FilterMembers(Parses(chunkHash), Candidates(alive, holders));
    SortKeepsNoDup(NearerTo(chunkHash), Rankable(chunkHash, Candidates(alive, holders)));
  }

  /** A second pass over the same alive peers changes nothing, whichever sends succeed. */
  lemma HealingIsIdempotent(chunkHash: string, holders: seq<string>, alive: seq<string>, self: string, k: int,
                            local: bool, sends: Send)
    requires NoDup(alive)
    ensures var once := Healed(chunkHash, holders, alive, self, k, local, sends);
            Healed(chunkHash, once, alive, self, k, local, sends) == once
  {
    var living := AliveHolders(holders, alive, self);
    var once := Healed(chunkHash, holders, alive, self, k, local, sends);
    if |living| < k {
      HealingIsConservative(chunkHash, holders, alive, self, k, local, sends);
      FilterKeepsAll(IsAlive(alive, self), once);
      if |once| < k {
        ToppingUpIsIdempotent(chunkHash, living, alive, k, local, sends);
      }
    }
  }

  lemma ToppingUpIsIdempotent(chunkHash: string, living: seq<string>, alive: seq<string>, k: int, local: bool,
                              sends: Send)
    requires NoDup(alive) && |living| < k
    requires |ToppedUp(chunkHash, living, alive, k, local, sends)| < k
    ensures var once := ToppedUp(chunkHash, living, alive, k, local, sends);
            ToppedUp(chunkHash, once, alive, k, local, sends) == once
  {
    if local {
      NothingIsAddedTwice(chunkHash, alive, living, k - |living|, sends);
    }
  }

  /** The peers nearest to the enlarged holder list are those that just refused. */
  lemma NothingIsAddedTwice(chunkHash: string, alive: seq<string>, living: seq<string>, needed: nat, sends: Send)
    requires NoDup(alive)
    ensures var accepts := Replication.Accepts(sends, chunkHash);
            var added := Filter(accepts, NewTargets(chunkHash, alive, living, needed));
            && |added| <= needed
            && Filter(accepts, NewTargets(chunkHash, alive, living + added, needed - |added|)) == []
  {
    var accepts := Replication.Accepts(sends, chunkHash);
    var ranked := Sort(NearerTo(chunkHash), Rankable(chunkHash, Candidates(alive, living)));
    var added := Filter(accepts, Take(ranked, needed));
    ByNameIsNearest(chunkHash, Candidates(alive, living), needed);
    RankedIsDuplicateFree(chunkHash, alive, living);
    SecondPassAsksRefusers(ranked, needed, accepts);
    SecondPassRanking(chunkHash, alive, living, added);
    ByNameIsNearest(chunkHash, Candidates(alive, living + added), needed - |added|);
  }

  /** The same for the whole table. */
  lemma SecondPassChangesNothing(table: Table, alive: seq<string>, self: string, k: int, store: set<string>,
                                 sends: Send)
    requires NoDup(alive)
    ensures var once := HealedTable(table, alive, self, k, store, sends);
            HealedTable(once, alive, self, k, store, sends) == once
  {
    forall c | c in table
      ensures Healed(c, Healed(c, table[c], alive, self, k, c in store, sends), alive, self, k, c in store, sends)
           == Healed(c, table[c], alive, self, k, c in store, sends)
    {
      HealingIsIdempotent(c, table[c], alive, self, k, c in store, sends);
    }
  }

  /** What replication wrote needs no healing: with all sends succeeding and at least k peers,
      a pass over the same peers leaves the new chunk alone. */
  lemma FreshReplicasNeedNoHealing(table: Table, chunks: seq<string>, c: string, peers: seq<Selector.Peer>,
                                   self: string,
                                   k: nat, rounded: real -> real, local: bool, sends: Send)
    requires NoDup(Replication.Ids(peers)) && self !in Replication.Ids(peers) && c in chunks && 0 < k <= |peers|
    requires forall pid :: sends(c, pid)
    ensures var t := Replication.ReplicatedTable(table, self, chunks, peers, k, rounded, sends);
            c in t && Healed(c, t[c], Replication.Ids(peers), self, k, local, sends) == t[c]
  {
    var t := Replication.ReplicatedTable(table, self, chunks, peers, k, rounded, sends);
    Replication.ReplicationRecordsHolders(table, self, chunks, peers, k, rounded, sends, c);
    Replication.TargetsAreDistinctPeers(c, peers, k, rounded);
    FilterMembers(Replication.Accepts(sends, c), Replication.Targets(c, peers, k, rounded));
    FilterKeepsAll(IsAlive(Replication.Ids(peers), self), t[c]);
  }
}
