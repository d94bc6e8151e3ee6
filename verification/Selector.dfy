/** Heuristic peer scores: free space and uptime count for a peer, latency against it. Scores
    are exact reals; how the source rounds them is a parameter. */
module Selector {
  import opened Sorting

  datatype Peer = Peer(id: string, freeSpace: real, uptime: real, latency: real)

  function Minimum(values: seq<real>): real
    requires values != []
  {
    if |values| == 1 then values[0]
    else
      var m := Minimum(values[1..]);
      if values[0] <= m then values[0] else m
  }

  function Maximum(values: seq<real>): real
    requires values != []
  {
    if |values| == 1 then values[0]
    else
      var m := Maximum(values[1..]);
      if values[0] >= m then values[0] else m
  }

  lemma {:induction false} ExtremesBound(values: seq<real>, i: nat)
    requires i < |values|
    ensures Minimum(values) <= values[i] <= Maximum(values)
  {
    if |values| > 1 && i > 0 {
      ExtremesBound(values[1..], i - 1);
    } else if |values| > 1 {
      ExtremesBound(values[1..], 0);
    }
  }

  function Scaled(v: real, mn: real, mx: real): real {
    if mx == mn then 0.5 else (v - mn) / (mx - mn)
  }

  function Normalize(values: seq<real>): seq<real> {
    if values == [] then []
    else seq(|values|, i requires 0 <= i < |values| => Scaled(values[i], Minimum(values), Maximum(values)))
  }

  /** Normalized values lie in [0, 1] and keep the order of the originals. */
  lemma NormalizeScales(values: seq<real>, i: nat, j: nat)
    requires i < |values| && j < |values| && values[i] <= values[j]
    ensures 0.0 <= Normalize(values)[i] <= Normalize(values)[j] <= 1.0
  {
    var mn, mx := Minimum(values), Maximum(values);
    ExtremesBound(values, i);
    ExtremesBound(values, j);
    if mx != mn {
      ScaleBounds(values[i] - mn, values[j] - mn, mx - mn);
    }
  }

  lemma ScaleBounds(a: real, b: real, w: real)
    requires 0.0 <= a <= b <= w && w > 0.0
    ensures 0.0 <= a / w <= b / w <= 1.0
  {
    assert a == (a / w) * w && b == (b / w) * w;
  }

  type Scored = (string, real)

  const ByScoreDescending: (Scored, Scored) -> bool := (a: Scored, b: Scored) => a.1 >= b.1

  function FreeSpaces(peers: seq<Peer>): seq<real> {
    seq(|peers|, i requires 0 <= i < |peers| => peers[i].freeSpace)
  }

  function Uptimes(peers: seq<Peer>): seq<real> {
    seq(|peers|, i requires 0 <= i < |peers| => peers[i].uptime)
  }

  function Latencies(peers: seq<Peer>): seq<real> {
    seq(|peers|, i requires 0 <= i < |peers| => peers[i].latency)
  }

  function Score(peers: seq<Peer>, i: nat): real
    requires i < |peers|
  {
    Normalize(FreeSpaces(peers))[i] + Normalize(Uptimes(peers))[i] - Normalize(Latencies(peers))[i]
  }

  function Unsorted(peers: seq<Peer>, rounded: real -> real): seq<Scored> {
    seq(|peers|, i requires 0 <= i < |peers| => ScoredAt(peers, i, rounded))
  }

  function ScoredAt(peers: seq<Peer>, i: nat, rounded: real -> real): Scored
    requires i < |peers|
  {
    (peers[i].id, rounded(Score(peers, i)))
  }

  function Ranking(peers: seq<Peer>, rounded: real -> real): seq<Scored> {
    Sort(ByScoreDescending, Unsorted(peers, rounded))
  }

  method ScorePeers(peers: seq<Peer>, rounded: real -> real) returns (results: seq<Scored>)
    ensures results == Ranking(peers, rounded)
  {
    if peers == [] {
      return [];
    }
    var fsNorm := Normalize(FreeSpaces(peers));
    var upNorm := Normalize(Uptimes(peers));
    var latNorm := Normalize(Latencies(peers));
    results := [];
    for i := 0 to |peers|
      invariant results == Unsorted(peers, rounded)[..i]
    {
      var score := fsNorm[i] + upNorm[i] - latNorm[i];
      assert Unsorted(peers, rounded)[..i + 1] == Unsorted(peers, rounded)[..i] + [Unsorted(peers, rounded)[i]];
      assert score == Score(peers, i);
      results := results + [(peers[i].id, rounded(score))];
    }
    assert Unsorted(peers, rounded)[..|peers|] == Unsorted(peers, rounded);
    results := Sort(ByScoreDescending, results);
  }

  /** The ranking lists every peer once, best score first. */
  lemma RankingIsSortedPermutation(peers: seq<Peer>, rounded: real -> real)
    ensures forall i, j :: 0 <= i < j < |Ranking(peers, rounded)| ==>
              Ranking(peers, rounded)[i].1 >= Ranking(peers, rounded)[j].1
    ensures multiset(Ranking(peers, rounded)) == multiset(Unsorted(peers, rounded))
    ensures |Ranking(peers, rounded)| == |peers|
    ensures forall i :: 0 <= i < |peers| ==> Unsorted(peers, rounded)[i] == (peers[i].id, rounded(Score(peers, i)))
  {
    assert TotalPreorder(ByScoreDescending);
    SortSorts(ByScoreDescending, Unsorted(peers, rounded));
    SortPermutes(ByScoreDescending, Unsorted(peers, rounded));
  }

  /** A peer that is at least as good in every respect never scores lower, and every score
      lies between -1 and 2. */
  lemma BetterPeerScoresNoLower(peers: seq<Peer>, i: nat, j: nat)
    requires i < |peers| && j < |peers|
    requires peers[i].freeSpace <= peers[j].freeSpace && peers[i].uptime <= peers[j].uptime
    requires peers[i].latency >= peers[j].latency
    ensures -1.0 <= Score(peers, i) <= Score(peers, j) <= 2.0
  {
    NormalizeScales(FreeSpaces(peers), i, j);
    NormalizeScales(Uptimes(peers), i, j);
    NormalizeScales(Latencies(peers), j, i);
  }

  // ---- The score, spelled out ----

  /** lo and hi are the least and the greatest of the values. */
  ghost predicate IsRange(values: seq<real>, lo: real, hi: real) {
    lo in values && hi in values && forall v :: v in values ==> lo <= v <= hi
  }

  lemma {:induction false} ExtremesAreAttained(values: seq<real>)
    requires values != []
    ensures IsRange(values, Minimum(values), Maximum(values))
  {
    forall v | v in values
      ensures Minimum(values) <= v <= Maximum(values)
    {
      var i :| 0 <= i < |values| && values[i] == v;
      ExtremesBound(values, i);
    }
    if |values| > 1 {
      ExtremesAreAttained(values[1..]);
    }
  }

  lemma ScaledIsLinear(v: real, lo: real, hi: real)
    requires lo < hi
    ensures Scaled(v, lo, hi) * (hi - lo) == v - lo
  {
  }

  /** Each quantity is scaled linearly from its least to its greatest value, 0.5 when all are
      equal. */
  lemma NormalizeIsLinear(values: seq<real>, i: nat, lo: real, hi: real)
    requires i < |values| && IsRange(values, lo, hi)
    ensures Normalize(values)[i] == if lo == hi then 0.5 else (values[i] - lo) / (hi - lo)
  {
    ExtremesAreAttained(values);
    assert lo == Minimum(values) && hi == Maximum(values);
  }

  /** The score adds scaled free space and scaled uptime and takes off scaled latency, each with
      the same weight. */
  lemma ScoreIsTheSum(peers: seq<Peer>, i: nat, f: real, u: real, l: real)
    requires i < |peers|
    requires f == Normalize(FreeSpaces(peers))[i] && u == Normalize(Uptimes(peers))[i]
    requires l == Normalize(Latencies(peers))[i]
    ensures Score(peers, i) == f + u - l
    ensures FreeSpaces(peers)[i] == peers[i].freeSpace && Uptimes(peers)[i] == peers[i].uptime
    ensures Latencies(peers)[i] == peers[i].latency
  {
  }

  /** With everything else equal, more space or uptime or less latency scores strictly higher. */
  lemma StrictlyBetterScoresHigher(peers: seq<Peer>, i: nat, j: nat)
    requires i < |peers| && j < |peers|
    requires peers[i].freeSpace <= peers[j].freeSpace && peers[i].uptime <= peers[j].uptime
    requires peers[i].latency >= peers[j].latency
    ensures Score(peers, i) == Score(peers, j) <==>
            peers[i].freeSpace == peers[j].freeSpace && peers[i].uptime == peers[j].uptime
            && peers[i].latency == peers[j].latency
  {
    BetterPeerScoresNoLower(peers, i, j);
    ScalingIsStrict(FreeSpaces(peers), i, j);
    ScalingIsStrict(Uptimes(peers), i, j);
    ScalingIsStrict(Latencies(peers), j, i);
  }

  lemma ScaledIsStrict(v: real, w: real, lo: real, hi: real)
    requires lo <= v <= w <= hi
    ensures Scaled(v, lo, hi) == Scaled(w, lo, hi) <==> v == w
  {
    if lo < hi && v < w {
      ScaledIsLinear(v, lo, hi);
      ScaledIsLinear(w, lo, hi);
    }
  }

  lemma ScalingIsStrict(values: seq<real>, i: nat, j: nat)
    requires i < |values| && j < |values| && values[i] <= values[j]
    ensures Normalize(values)[i] <= Normalize(values)[j]
    ensures Normalize(values)[i] == Normalize(values)[j] <==> values[i] == values[j]
  {
    var lo, hi := Minimum(values), Maximum(values);
    ExtremesAreAttained(values);
    NormalizeScales(values, i, j);
    NormalizeIsLinear(values, i, lo, hi);
    NormalizeIsLinear(values, j, lo, hi);
    assert values[i] in values && values[j] in values;
    ScaledIsStrict(values[i], values[j], lo, hi);
  }
}
