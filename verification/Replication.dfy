/** Choosing replica targets and recording where chunks went. */
module Replication {
  import opened Primitives
  import opened Sorting
  import opened Finite
  import opened Routing
  import opened Selector
  import LocalStore

  function Ids(peers: seq<Peer>): seq<string> {
    seq(|peers|, i requires 0 <= i < |peers| => peers[i].id)
  }

  function ScoredNames(scored: seq<Scored>): seq<string> {
    seq(|scored|, i requires 0 <= i < |scored| => scored[i].0)
  }

  /** Appends what is not there yet, in order. */
  function AppendNew(list: seq<string>, more: seq<string>): seq<string>
    decreases |more|
  {
    if more == [] then list
    else if more[0] in list then AppendNew(list, more[1..])
    else AppendNew(list + [more[0]], more[1..])
  }

  function XorTop(chunkHash: string, peers: seq<Peer>, k: nat): seq<string> {
    Names(Closest(chunkHash, Ids(peers), k))
  }

  function HeuristicTop(peers: seq<Peer>, k: nat, rounded: real -> real): seq<string> {
    ScoredNames(Take(Ranking(peers, rounded), 2 * k))
  }

  function Targets(chunkHash: string, peers: seq<Peer>, k: nat, rounded: real -> real): seq<string> {
    Take(AppendNew(AppendNew([], XorTop(chunkHash, peers, k)), HeuristicTop(peers, k, rounded)), k)
  }

  method SelectTargets(chunkHash: string, peers: seq<Peer>, k: nat, rounded: real -> real)
    returns (targets: seq<string>)
    ensures targets == Targets(chunkHash, peers, k, rounded)
  {
    if peers == [] {
      return [];
    }
    var scored := ScorePeers(peers, rounded);
    var heuristicTop := ScoredNames(Take(scored, k * 2));
    var xorClosest := FindClosestPeers(chunkHash, Ids(peers), k);
    var xorTop := Names(xorClosest);
    var combined := [];
    for i := 0 to |xorTop|
      invariant AppendNew(combined, xorTop[i..]) == AppendNew([], xorTop)
    {
      assert xorTop[i..][1..] == xorTop[i + 1..];
      if xorTop[i] !in combined {
        combined := combined + [xorTop[i]];
      }
    }
    ghost var first := combined;
    for i := 0 to |heuristicTop|
      invariant AppendNew(combined, heuristicTop[i..]) == AppendNew(first, heuristicTop)
    {
      assert heuristicTop[i..][1..] == heuristicTop[i + 1..];
      if heuristicTop[i] !in combined {
        combined := combined + [heuristicTop[i]];
      }
    }
    return Take(combined, k);
  }

  lemma {:induction false} AppendNewAppends(list: seq<string>, more: seq<string>)
    requires NoDup(list)
    ensures list <= AppendNew(list, more) && NoDup(AppendNew(list, more))
    ensures SetOf(AppendNew(list, more)) == SetOf(list) + SetOf(more)
    decreases |more|
  {
    if more != [] {
      assert more == [more[0]] + more[1..];
      if more[0] in list {
        AppendNewAppends(list, more[1..]);
      } else {
        assert NoDup(list + [more[0]]);
        AppendNewAppends(list + [more[0]], more[1..]);
      }
    }
  }

  lemma {:induction false} AppendNewToNothing(list: seq<string>, more: seq<string>)
    requires NoDup(list + more)
    ensures AppendNew(list, more) == list + more
    decreases |more|
  {
    if more == [] {
      assert list + more == list;
    } else {
      assert list + more == (list + [more[0]]) + more[1..];
      assert (list + more)[|list|] == more[0];
      forall i | 0 <= i < |list|
        ensures list[i] != more[0]
      {
        assert (list + more)[i] == list[i];
      }
      AppendNewToNothing(list + [more[0]], more[1..]);
    }
  }

  lemma XorTopIsDistinct(chunkHash: string, peers: seq<Peer>, k: nat)
    requires NoDup(Ids(peers))
    ensures NoDup(XorTop(chunkHash, peers, k))
    ensures forall id :: id in XorTop(chunkHash, peers, k) ==> id in Ids(peers)
    ensures |XorTop(chunkHash, peers, k)| ==
            (var n := |Rankable(chunkHash, Ids(peers))|; if k <= n then k else n)
  {
    ClosestIsNearest(chunkHash, Ids(peers), k);
    var r := Closest(chunkHash, Ids(peers), k);
    forall i, j | 0 <= i < j < |r|
      ensures r[i].0 != r[j].0
    {
      assert r[i] in r && r[j] in r && r[i] != r[j];
    }
    forall id | id in Names(r)
      ensures id in Ids(peers)
    {
      var i :| 0 <= i < |r| && r[i].0 == id;
      assert r[i] in r;
    }
  }

  lemma RankedNamesAreDistinct(peers: seq<Peer>, rounded: real -> real)
    requires NoDup(Ids(peers))
    ensures NoDup(ScoredNames(Ranking(peers, rounded))) && |Ranking(peers, rounded)| == |peers|
    ensures forall id :: id in ScoredNames(Ranking(peers, rounded)) ==> id in Ids(peers)
  {
    var r := Ranking(peers, rounded);
    RankingIsDuplicateFree(peers, rounded);
    forall i, j | 0 <= i < j < |r|
      ensures r[i].0 != r[j].0
    {
      RankedPeersDiffer(peers, rounded, r[i], r[j]);
    }
    forall i | 0 <= i < |r|
      ensures r[i].0 in Ids(peers)
    {
      var a := SourceOf(peers, rounded, r[i]);
      assert Ids(peers)[a] == r[i].0;
    }
  }

  lemma RankingIsDuplicateFree(peers: seq<Peer>, rounded: real -> real)
    requires NoDup(Ids(peers))
    ensures NoDup(Ranking(peers, rounded)) && |Ranking(peers, rounded)| == |peers|
  {
    var u := Unsorted(peers, rounded);
    RankingIsSortedPermutation(peers, rounded);
    assert forall i :: 0 <= i < |u| ==> u[i].0 == Ids(peers)[i];
    NoDupFromMultiset(u, Ranking(peers, rounded));
  }

  lemma HeuristicTopIsDistinct(peers: seq<Peer>, k: nat, rounded: real -> real)
    requires NoDup(Ids(peers))
    ensures NoDup(HeuristicTop(peers, k, rounded))
    ensures forall id :: id in HeuristicTop(peers, k, rounded) ==> id in Ids(peers)
    ensures |HeuristicTop(peers, k, rounded)| == if 2 * k <= |peers| then 2 * k else |peers|
  {
    RankedNamesAreDistinct(peers, rounded);
    var names := ScoredNames(Ranking(peers, rounded));
    assert HeuristicTop(peers, k, rounded) == Take(names, 2 * k);
  }

  lemma SourceOf(peers: seq<Peer>, rounded: real -> real, x: Scored) returns (i: nat)
    requires x in multiset(Ranking(peers, rounded))
    ensures i < |peers| && Unsorted(peers, rounded)[i] == x
  {
    RankingIsSortedPermutation(peers, rounded);
    i :| 0 <= i < |peers| && Unsorted(peers, rounded)[i] == x;
  }

  lemma RankedPeersDiffer(peers: seq<Peer>, rounded: real -> real, x: Scored, y: Scored)
    requires NoDup(Ids(peers)) && x != y
    requires x in multiset(Ranking(peers, rounded)) && y in multiset(Ranking(peers, rounded))
    ensures x.0 != y.0
  {
    var i := SourceOf(peers, rounded, x);
    var j := SourceOf(peers, rounded, y);
    assert i != j;
    assert Ids(peers)[i] == x.0 && Ids(peers)[j] == y.0;
  }

  /** Appending the new ones of h to x lists distinct peers, at least as many as h. */
  lemma CombinedPeers(all: seq<string>, x: seq<string>, h: seq<string>)
    requires NoDup(all) && NoDup(x) && NoDup(h)
    requires (forall id :: id in x ==> id in all) && (forall id :: id in h ==> id in all)
    ensures var c := AppendNew(x, h);
            && x <= c && NoDup(c) && |h| <= |c| <= |all|
            && (forall id :: id in c ==> id in all)
  {
    AppendNewAppends(x, h);
    var c := AppendNew(x, h);
    forall id | id in c
      ensures id in all
    {
      assert id in SetOf(c);
    }
    SetOfSize(c);
    SetOfSize(h);
    SetOfSize(all);
    SubsetSize(SetOf(h), SetOf(c));
    SubsetSize(SetOf(c), SetOf(all));
  }

  /** The targets are min(k, n) distinct alive peers, starting with the XOR-closest ones. */
  lemma TargetsAreDistinctPeers(chunkHash: string, peers: seq<Peer>, k: nat, rounded: real -> real)
    requires NoDup(Ids(peers))
    ensures var t := Targets(chunkHash, peers, k, rounded);
            && |t| == (if k <= |peers| then k else |peers|) && NoDup(t)
            && (forall id :: id in t ==> id in Ids(peers))
            && XorTop(chunkHash, peers, k) <= t
  {
    var x, h := XorTop(chunkHash, peers, k), HeuristicTop(peers, k, rounded);
    XorTopIsDistinct(chunkHash, peers, k);
    HeuristicTopIsDistinct(peers, k, rounded);
    assert [] + x == x;
    AppendNewToNothing([], x);
    CombinedPeers(Ids(peers), x, h);
    FilterMembers(Parses(chunkHash), Ids(peers));
  }

  /** When the chunk hash and all ids are valid hex, the targets are exactly the k XOR-nearest
      peers, nearest first; scores only ever fill slots that unparseable ids leave open. */
  lemma ValidIdsDecideTargets(chunkHash: string, peers: seq<Peer>, k: nat, rounded: real -> real)
    requires NoDup(Ids(peers)) && ParseHex(chunkHash).Some?
    ensures |XorTop(chunkHash, peers, k)| == k || (forall p :: p in peers ==> ParseHex(p.id).Some?) ==>
              Targets(chunkHash, peers, k, rounded) == XorTop(chunkHash, peers, k)
  {
    TargetsAreDistinctPeers(chunkHash, peers, k, rounded);
    XorTopIsDistinct(chunkHash, peers, k);
    if forall p :: p in peers ==> ParseHex(p.id).Some? {
      forall i | 0 <= i < |peers|
        ensures XorDistance(chunkHash, Ids(peers)[i]).Some?
      {
        assert peers[i] in peers;
      }
      FilterKeepsAll(Parses(chunkHash), Ids(peers));
    }
  }

  // ---- Who fills the slots that XOR leaves open ----

  lemma {:induction false} AppendNewFilters(list: seq<string>, more: seq<string>)
    requires NoDup(more)
    ensures AppendNew(list, more) == list + Filter(NotIn(list), more)
    decreases |more|
  {
    if more != [] {
      var head, tail := more[0], more[1..];
      assert more == [head] + tail && head !in tail;
      if head in list {
        AppendNewFilters(list, tail);
      } else {
        AppendNewFilters(list + [head], tail);
        SameOutside(list, head, tail);
        assert list + ([head] + Filter(NotIn(list), tail)) == (list + [head]) + Filter(NotIn(list), tail);
      }
    } else {
      assert list + [] == list;
    }
  }

  lemma {:induction false} SameOutside(list: seq<string>, head: string, tail: seq<string>)
    requires head !in tail
    ensures Filter(NotIn(list + [head]), tail) == Filter(NotIn(list), tail)
  {
    if tail != [] {
      assert tail[0] in tail;
      SameOutside(list, head, tail[1..]);
    }
  }

  /** Of the first 2k names at most as many are taken out as were chosen by distance. */
  lemma {:induction false} EnoughAreLeft(x: seq<string>, h: seq<string>)
    requires NoDup(h)
    ensures |Filter(NotIn(x), h)| + |x| >= |h|
  {
    AppendNewFilters([], h);
    var kept := Filter(NotIn(x), h);
    FilterMembers(NotIn(x), h);
    SetOfSize(h);
    SetOfSize(x);
    SetOfSize(kept);
    forall id | id in SetOf(h)
      ensures id in SetOf(kept) + SetOf(x)
    {
    }
    SubsetSize(SetOf(h), SetOf(kept) + SetOf(x));
    SumOfSizes(SetOf(kept), SetOf(x));
  }

  lemma SumOfSizes(a: set<string>, b: set<string>)
    ensures |a + b| <= |a| + |b|
  {
    assert |a + b| == |a| + |b - a|;
    SubsetSize(b - a, b);
  }

  lemma SlotsAreFilled(x: seq<string>, names: seq<string>, k: nat)
    requires |x| <= k && NoDup(names)
    ensures Take(AppendNew(x, Take(names, 2 * k)), k) == x + Take(Filter(NotIn(x), names), k - |x|)
  {
    var h := Take(names, 2 * k);
    var rest := names[|h|..];
    assert names == h + rest;
    AppendNewFilters(x, h);
    FilterConcat(NotIn(x), h, rest);
    EnoughAreLeft(x, h);
    if |names| <= 2 * k {
      assert rest == [] && Filter(NotIn(x), names) == Filter(NotIn(x), h);
    }
    PrefixOfConcat(x, Filter(NotIn(x), h), Filter(NotIn(x), rest), k);
  }

  lemma PrefixOfConcat(x: seq<string>, a: seq<string>, b: seq<string>, k: nat)
    requires |x| <= k && (|a| + |x| >= k || b == [])
    ensures Take(x + a, k) == x + Take(a + b, k - |x|)
  {
  }

  /** The targets are the k XOR-nearest peers, then the best scored of the others until there
      are k, best first. */
  lemma SlotsGoToTheBestScores(chunkHash: string, peers: seq<Peer>, k: nat, rounded: real -> real)
    requires NoDup(Ids(peers))
    ensures var x := XorTop(chunkHash, peers, k);
            && |x| <= k
            && Targets(chunkHash, peers, k, rounded) ==
               x + Take(Filter(NotIn(x), ScoredNames(Ranking(peers, rounded))), k - |x|)
  {
    var x := XorTop(chunkHash, peers, k);
    var names := ScoredNames(Ranking(peers, rounded));
    XorTopIsDistinct(chunkHash, peers, k);
    RankedNamesAreDistinct(peers, rounded);
    assert [] + x == x;
    AppendNewToNothing([], x);
    assert HeuristicTop(peers, k, rounded) == Take(names, 2 * k);
    SlotsAreFilled(x, names, k);
  }

  // ---- replicate_chunks ----

  type Send = (string, string) -> bool   // chunk, peer: does the send succeed

  function Accepts(sends: Send, chunkHash: string): string -> bool {
    (pid: string) => sends(chunkHash, pid)
  }

  function ReplicaHolders(self: string, chunkHash: string, targets: seq<string>, sends: Send): seq<string> {
    [self] + Filter(Accepts(sends, chunkHash), targets)
  }

  /** The table after replicating the chunks in order; without peers nothing is recorded. */
  function ReplicatedTable(table: Table, self: string, chunks: seq<string>, peers: seq<Peer>, k: nat,
                           rounded: real -> real, sends: Send): Table
    decreases |chunks|
  {
    if chunks == [] then table
    else
      var c := chunks[0];
      var targets := Targets(c, peers, k, rounded);
      var next := if targets == [] then table else table[c := ReplicaHolders(self, c, targets, sends)];
      ReplicatedTable(next, self, chunks[1..], peers, k, rounded, sends)
  }

  method SendToTargets(chunkHash: string, targets: seq<string>, sends: Send) returns (replicatedTo: seq<string>)
    ensures replicatedTo == Filter(Accepts(sends, chunkHash), targets)
  {
    replicatedTo := [];
    for i := 0 to |targets|
      invariant replicatedTo + Filter(Accepts(sends, chunkHash), targets[i..]) ==
                Filter(Accepts(sends, chunkHash), targets)
    {
      assert targets[i..][1..] == targets[i + 1..];
      if sends(chunkHash, targets[i]) {
        replicatedTo := replicatedTo + [targets[i]];
      }
    }
    assert replicatedTo + [] == replicatedTo;
  }

  /** What `replicate_chunks` reports on a chunk; without targets it gives no total. */
  datatype Report = Report(replicatedTo: seq<string>, totalCopies: Option<nat>)

  function ReportOn(chunkHash: string, targets: seq<string>, sends: Send): Report {
    if targets == [] then Report([], None)
    else
      var accepted := Filter(Accepts(sends, chunkHash), targets);
      Report(accepted, Some(1 + |accepted|))
  }

  /** The data saved last under a hash. */
  function LastData(chunks: seq<string>, datas: seq<Bytes>, chunkHash: string): Option<Bytes>
    requires |chunks| == |datas|
    decreases |chunks|
  {
    var last := |chunks| - 1;
    if chunks == [] then None
    else if chunks[last] == chunkHash then Some(datas[last])
    else LastData(chunks[..last], datas[..last], chunkHash)
  }

  /** The chunk directory after saving these chunks over `before`. */
  ghost predicate SavedOver(before: seq<LocalStore.File>, files: seq<LocalStore.File>, chunks: seq<string>,
                            datas: seq<Bytes>, atime: int)
    requires |chunks| == |datas|
  {
    && (forall c {:trigger LastData(chunks, datas, c)} :: LastData(chunks, datas, c).Some? ==>
          LocalStore.Lookup(files, LocalStore.ChunkFile(c)) ==
          Some(LocalStore.File(LocalStore.ChunkFile(c), LastData(chunks, datas, c).value, atime)))
    && (forall name: LocalStore.FileName :: !(name.ChunkFile? && LastData(chunks, datas, name.hash).Some?) ==>
          LocalStore.Lookup(files, name) == LocalStore.Lookup(before, name))
  }

  lemma SavingOneMore(before: seq<LocalStore.File>, files: seq<LocalStore.File>, after: seq<LocalStore.File>,
                      chunks: seq<string>, datas: seq<Bytes>, n: nat, atime: int)
    requires n < |chunks| && n < |datas| && SavedOver(before, files, chunks[..n], datas[..n], atime)
    requires LocalStore.Lookup(after, LocalStore.ChunkFile(chunks[n])) ==
             Some(LocalStore.File(LocalStore.ChunkFile(chunks[n]), datas[n], atime))
    requires forall name: LocalStore.FileName :: name != LocalStore.ChunkFile(chunks[n]) ==>
               LocalStore.Lookup(after, name) == LocalStore.Lookup(files, name)
    ensures SavedOver(before, after, chunks[..n + 1], datas[..n + 1], atime)
  {
    forall c: string
      ensures LastData(chunks[..n + 1], datas[..n + 1], c) ==
              if c == chunks[n] then Some(datas[n]) else LastData(chunks[..n], datas[..n], c)
    {
      assert chunks[..n + 1][..n] == chunks[..n] && datas[..n + 1][..n] == datas[..n];
    }
    forall c: string | LastData(chunks[..n + 1], datas[..n + 1], c).Some?
      ensures LocalStore.Lookup(after, LocalStore.ChunkFile(c)) ==
              Some(LocalStore.File(LocalStore.ChunkFile(c), LastData(chunks[..n + 1], datas[..n + 1], c).value, atime))
    {
      assert c != chunks[n] ==> LastData(chunks[..n], datas[..n], c).Some?;
    }
    forall name: LocalStore.FileName |
        !(name.ChunkFile? && LastData(chunks[..n + 1], datas[..n + 1], name.hash).Some?)
      ensures LocalStore.Lookup(after, name) == LocalStore.Lookup(before, name)
    {
      if name.ChunkFile? {
        assert name.hash != chunks[n] && LastData(chunks[..n], datas[..n], name.hash).None?;
      }
    }
  }

  /** Targets are chosen, sent to and recorded; a chunk without targets stays unrecorded. */
  method PlaceChunk(routing: RoutingTable, self: string, chunkHash: string, peers: seq<Peer>, k: nat,
                    rounded: real -> real, sends: Send)
    returns (report: Report)
    modifies routing
    ensures var targets := Targets(chunkHash, peers, k, rounded);
            && routing.table == (if targets == [] then old(routing.table)
                                 else old(routing.table)[chunkHash := ReplicaHolders(self, chunkHash, targets, sends)])
            && report == ReportOn(chunkHash, targets, sends)
  {
    var targets := SelectTargets(chunkHash, peers, k, rounded);
    if targets == [] {
      return Report([], None);
    }
    var replicatedTo := SendToTargets(chunkHash, targets, sends);
    routing.AssignChunk(chunkHash, [self] + replicatedTo);
    return Report(replicatedTo, Some(1 + |replicatedTo|));
  }

  ghost predicate Reported(results: map<string, Report>, chunks: seq<string>, peers: seq<Peer>, k: nat,
                           rounded: real -> real, sends: Send)
  {
    && (forall c :: c in results <==> c in chunks)
    && (forall c :: c in results ==> results[c] == ReportOn(c, Targets(c, peers, k, rounded), sends))
  }

  lemma ReportingOneMore(results: map<string, Report>, chunks: seq<string>, n: nat, peers: seq<Peer>, k: nat,
                         rounded: real -> real, sends: Send)
    requires n < |chunks| && Reported(results, chunks[..n], peers, k, rounded, sends)
    ensures Reported(results[chunks[n] := ReportOn(chunks[n], Targets(chunks[n], peers, k, rounded), sends)],
                     chunks[..n + 1], peers, k, rounded, sends)
  {
    assert chunks[..n + 1] == chunks[..n] + [chunks[n]];
  }

  lemma PlacingOneMore(table: Table, self: string, chunks: seq<string>, n: nat, peers: seq<Peer>, k: nat,
                       rounded: real -> real, sends: Send)
    requires n < |chunks|
    ensures var targets := Targets(chunks[n], peers, k, rounded);
            var next := if targets == [] then table
                        else table[chunks[n] := ReplicaHolders(self, chunks[n], targets, sends)];
            ReplicatedTable(table, self, chunks[n..], peers, k, rounded, sends) ==
            ReplicatedTable(next, self, chunks[n + 1..], peers, k, rounded, sends)
  {
    assert chunks[n..][1..] == chunks[n + 1..];
  }

  /** Pairs hashes with data as far as both go; each chunk is saved, placed and reported. */
  method ReplicateChunks(routing: RoutingTable, local: LocalStore.LocalStore, self: string, chunks: seq<string>,
                         datas: seq<Bytes>, peers: seq<Peer>, k: nat, rounded: real -> real, sends: Send, atime: int)
    returns (results: map<string, Report>)
    requires local.Valid()
    modifies routing, local
    ensures var n := if |chunks| <= |datas| then |chunks| else |datas|;
            && routing.table == ReplicatedTable(old(routing.table), self, chunks[..n], peers, k, rounded, sends)
            && Reported(results, chunks[..n], peers, k, rounded, sends)
            && local.Valid() && SavedOver(old(local.files), local.files, chunks[..n], datas[..n], atime)
  {
    var count := if |chunks| <= |datas| then |chunks| else |datas|;
    ghost var list := chunks[..count];
    results := map[];
    for n := 0 to count
      invariant ReplicatedTable(routing.table, self, list[n..], peers, k, rounded, sends) ==
                ReplicatedTable(old(routing.table), self, list, peers, k, rounded, sends)
      invariant Reported(results, chunks[..n], peers, k, rounded, sends)
      invariant local.Valid() && SavedOver(old(local.files), local.files, chunks[..n], datas[..n], atime)
    {
      ghost var files := local.files;
      local.SaveChunk(chunks[n], datas[n], atime);
      SavingOneMore(old(local.files), files, local.files, chunks, datas, n, atime);
      PlacingOneMore(routing.table, self, list, n, peers, k, rounded, sends);
      ReportingOneMore(results, chunks, n, peers, k, rounded, sends);
      var report := PlaceChunk(routing, self, chunks[n], peers, k, rounded, sends);
      results := results[chunks[n] := report];
    }
  }

  /** Every replicated chunk lists this node first, then distinct alive targets; with all
      sends succeeding there are min(k, n) of them. */
  lemma {:induction false} ReplicationRecordsHolders(table: Table, self: string, chunks: seq<string>, peers: seq<Peer>,
                                                     k: nat, rounded: real -> real, sends: Send, c: string)
    requires NoDup(Ids(peers)) && self !in Ids(peers) && c in chunks && k > 0 && peers != []
    ensures var t := ReplicatedTable(table, self, chunks, peers, k, rounded, sends);
            && c in t && NoDup(t[c]) && t[c] == ReplicaHolders(self, c, Targets(c, peers, k, rounded), sends)
            && ((forall pid :: sends(c, pid)) ==> |t[c]| == 1 + if k <= |peers| then k else |peers|)
    decreases |chunks|
  {
    var targets := Targets(chunks[0], peers, k, rounded);
    TargetsAreDistinctPeers(chunks[0], peers, k, rounded);
    var next := table[chunks[0] := ReplicaHolders(self, chunks[0], targets, sends)];
    if c in chunks[1..] {
      ReplicationRecordsHolders(next, self, chunks[1..], peers, k, rounded, sends, c);
    } else {
      assert c == chunks[0];
      OtherChunksKeepHolders(next, self, chunks[1..], peers, k, rounded, sends, c);
      FilterMembers(Accepts(sends, c), targets);
      if forall pid :: sends(c, pid) {
        FilterKeepsAll(Accepts(sends, c), targets);
      }
    }
  }

  /** For every outcome of the sends: this node comes first, then in target order exactly the
      targets to which the send succeeded. */
  lemma HoldersAcceptedTheChunk(table: Table, self: string, chunks: seq<string>, peers: seq<Peer>, k: nat,
                                rounded: real -> real, sends: Send, c: string, h: string, h': string)
    requires NoDup(Ids(peers)) && self !in Ids(peers) && c in chunks && k > 0 && peers != []
    ensures var t, targets := ReplicatedTable(table, self, chunks, peers, k, rounded, sends),
                              Targets(c, peers, k, rounded);
            && c in t && t[c] != [] && t[c][0] == self
            && (h in t[c][1..] <==> h in targets && sends(c, h))
            && (Precedes(t[c][1..], h, h') <==> sends(c, h) && sends(c, h') && Precedes(targets, h, h'))
  {
    ReplicationRecordsHolders(table, self, chunks, peers, k, rounded, sends, c);
    AcceptingTargets(self, c, Targets(c, peers, k, rounded), sends, h, h');
  }

  lemma AcceptingTargets(self: string, c: string, targets: seq<string>, sends: Send, h: string, h': string)
    ensures var holders := ReplicaHolders(self, c, targets, sends);
            && holders != [] && holders[0] == self
            && (h in holders[1..] <==> h in targets && sends(c, h))
            && (Precedes(holders[1..], h, h') <==> sends(c, h) && sends(c, h') && Precedes(targets, h, h'))
  {
    FilterMembers(Accepts(sends, c), targets);
    FilterKeepsOrder(Accepts(sends, c), targets, h, h');
    assert ReplicaHolders(self, c, targets, sends)[1..] == Filter(Accepts(sends, c), targets);
  }

  lemma NoTargets(chunkHash: string, peers: seq<Peer>, k: nat, rounded: real -> real)
    requires peers == [] || k == 0
    ensures Targets(chunkHash, peers, k, rounded) == []
  {
    if k > 0 {
      assert Ids(peers) == [] && Ranking(peers, rounded) == [];
      assert XorTop(chunkHash, peers, k) == [] && HeuristicTop(peers, k, rounded) == [];
    }
  }

  /** A report names exactly the targets to which the send succeeded, in order, and counts this
      node's copy with theirs. */
  lemma ReportsNameTheReceivers(c: string, targets: seq<string>, sends: Send, h: string, h': string)
    ensures var r := ReportOn(c, targets, sends);
            && (h in r.replicatedTo <==> h in targets && sends(c, h))
            && (Precedes(r.replicatedTo, h, h') <==> sends(c, h) && sends(c, h') && Precedes(targets, h, h'))
            && r.totalCopies == (if targets == [] then None else Some(|r.replicatedTo| + 1))
  {
    FilterMembers(Accepts(sends, c), targets);
    FilterKeepsOrder(Accepts(sends, c), targets, h, h');
  }

  /** Without peers, or with factor 0, nothing is recorded. */
  lemma {:induction false} NoTargetsNoRecord(table: Table, self: string, chunks: seq<string>, peers: seq<Peer>, k: nat,
                                             rounded: real -> real, sends: Send)
    requires peers == [] || k == 0
    ensures ReplicatedTable(table, self, chunks, peers, k, rounded, sends) == table
    decreases |chunks|
  {
    if chunks != [] {
      NoTargets(chunks[0], peers, k, rounded);
      NoTargetsNoRecord(table, self, chunks[1..], peers, k, rounded, sends);
    }
  }

  lemma {:induction false} OtherChunksKeepHolders(table: Table, self: string, chunks: seq<string>, peers: seq<Peer>,
                                                  k: nat, rounded: real -> real, sends: Send, c: string)
    requires c !in chunks && c in table
    ensures var t := ReplicatedTable(table, self, chunks, peers, k, rounded, sends); c in t && t[c] == table[c]
    decreases |chunks|
  {
    if chunks != [] {
      assert chunks[0] in chunks;
      var targets := Targets(chunks[0], peers, k, rounded);
      var next := if targets == [] then table else table[chunks[0] := ReplicaHolders(self, chunks[0], targets, sends)];
      OtherChunksKeepHolders(next, self, chunks[1..], peers, k, rounded, sends, c);
    }
  }
}
