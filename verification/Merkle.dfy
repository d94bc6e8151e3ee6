/** The Merkle tree of a list of chunk hashes. `Node` describes it from the top down; the methods
    rebuild it level by level. */
module Merkle {
  import opened Primitives

  type Hash = Bytes -> Bytes

  /** Nodes at height d over n leaves. */
  function Width(n: nat, d: nat): nat {
    if d == 0 then n else (Width(n, d - 1) + 1) / 2
  }

  /** How often n halves, rounding up, before a single node is left. */
  function Height(n: nat): nat {
    if n <= 1 then 0 else 1 + Height((n + 1) / 2)
  }

  /** The i-th node at height d. */
  ghost function Node(hash: Hash, leaves: seq<Bytes>, d: nat, i: nat): Bytes
    requires i < Width(|leaves|, d)
    decreases d, 0
  {
    if d == 0 then leaves[i] else hash(Preimage(hash, leaves, d - 1, i))
  }

  /** What is hashed into node i of height d + 1: its two children at height d. */
  ghost function Preimage(hash: Hash, leaves: seq<Bytes>, d: nat, i: nat): Bytes
    requires i < Width(|leaves|, d + 1)
    decreases d, 1
  {
    Node(hash, leaves, d, 2 * i) + Node(hash, leaves, d, RightChild(|leaves|, d, i))
  }

  ghost function RightChild(n: nat, d: nat, i: nat): (j: nat)
    requires i < Width(n, d + 1)
    ensures j < Width(n, d)
  {
    if 2 * i + 1 < Width(n, d) then 2 * i + 1 else 2 * i
  }

  lemma {:induction false} WidthShifts(n: nat, d: nat)
    ensures Width(n, d + 1) == Width((n + 1) / 2, d)
  {
    if d > 0 {
      WidthShifts(n, d - 1);
    }
  }

  /** The height is exactly where the width first drops to one. */
  lemma {:induction false} WidthAtHeight(n: nat, d: nat)
    requires n > 0 && d <= Height(n)
    ensures Width(n, d) == 1 <==> d == Height(n)
    ensures Width(n, d) >= 1
  {
    if n > 1 && d > 0 {
      WidthShifts(n, d - 1);
      WidthAtHeight((n + 1) / 2, d - 1);
    }
  }

  ghost function Root(hash: Hash, leaves: seq<Bytes>): Bytes {
    if leaves == [] then hash([])
    else
      WidthAtHeight(|leaves|, Height(|leaves|));
      Node(hash, leaves, Height(|leaves|), 0)
  }

  ghost predicate IsLevel(hash: Hash, leaves: seq<Bytes>, d: nat, level: seq<Bytes>) {
    |level| == Width(|leaves|, d) && forall j :: 0 <= j < |level| ==> level[j] == Node(hash, leaves, d, j)
  }

  /** The hash of a level's p-th pair, an odd last entry paired with itself. */
  ghost function Parent(hash: Hash, level: seq<Bytes>, p: nat): Bytes
    requires 2 * p < |level|
  {
    hash(level[2 * p] + (if 2 * p + 1 < |level| then level[2 * p + 1] else level[2 * p]))
  }

  ghost predicate ArePairsHashed(hash: Hash, level: seq<Bytes>, above: seq<Bytes>) {
    2 * |above| <= |level| + 1 && forall p :: 0 <= p < |above| ==> above[p] == Parent(hash, level, p)
  }

  lemma NextPairIsHashed(hash: Hash, level: seq<Bytes>, above: seq<Bytes>)
    requires ArePairsHashed(hash, level, above) && 2 * |above| < |level|
    ensures ArePairsHashed(hash, level, above + [Parent(hash, level, |above|)])
  {
  }

  lemma PairsMakeNextLevel(hash: Hash, leaves: seq<Bytes>, d: nat, level: seq<Bytes>, above: seq<Bytes>)
    requires IsLevel(hash, leaves, d, level) && |level| > 1 && d <= Height(|leaves|)
    requires ArePairsHashed(hash, level, above) && |above| == (|level| + 1) / 2
    ensures IsLevel(hash, leaves, d + 1, above) && d < Height(|leaves|)
  {
    WidthAtHeight(|leaves|, d);
    forall p | 0 <= p < Width(|leaves|, d + 1)
      ensures above[p] == Node(hash, leaves, d + 1, p)
    {
      assert level[2 * p] == Node(hash, leaves, d, 2 * p);
      assert level[RightChild(|leaves|, d, p)] == Node(hash, leaves, d, RightChild(|leaves|, d, p));
    }
  }

  lemma SingleNodeIsRoot(hash: Hash, leaves: seq<Bytes>, d: nat, level: seq<Bytes>)
    requires IsLevel(hash, leaves, d, level) && |level| == 1 && d <= Height(|leaves|) && leaves != []
    ensures level[0] == Root(hash, leaves) && d == Height(|leaves|)
  {
    WidthAtHeight(|leaves|, d);
  }

  method ComputeMerkleRoot(hash: Hash, hashes: seq<Bytes>) returns (root: Bytes)
    ensures root == Root(hash, hashes)
  {
    if hashes == [] {
      return hash([]);
    }
    if |hashes| == 1 {
      return hashes[0];
    }
    var level := hashes;
    ghost var d := 0;
    while |level| > 1
      invariant d <= Height(|hashes|) && |level| >= 1
      invariant IsLevel(hash, hashes, d, level)
    {
      var nextLevel := [];
      var i := 0;
      while i < |level|
        invariant i == 2 * |nextLevel| && ArePairsHashed(hash, level, nextLevel)
      {
        var left := level[i];
        var right := if i + 1 < |level| then level[i + 1] else level[i];
        nextLevel := nextLevel + [hash(left + right)];
        i := i + 2;
      }
      PairsMakeNextLevel(hash, hashes, d, level, nextLevel);
      level := nextLevel;
      d := d + 1;
    }
    SingleNodeIsRoot(hash, hashes, d, level);
    return level[0];
  }

  // ---- Proofs ----

  datatype Position = Left | Right

  datatype ProofStep = ProofStep(hash: Bytes, position: Position)

  /** The sibling recorded at height d for index idx; nothing when the pair is not there. */
  ghost function StepAt(hash: Hash, leaves: seq<Bytes>, d: nat, idx: int): seq<ProofStep> {
    if 0 <= idx / 2 < Width(|leaves|, d + 1) then
      if idx % 2 == 0 then [ProofStep(Node(hash, leaves, d, RightChild(|leaves|, d, idx / 2)), Right)]
      else [ProofStep(Node(hash, leaves, d, idx - 1), Left)]
    else []
  }

  ghost function ProofFrom(hash: Hash, leaves: seq<Bytes>, d: nat, idx: int): seq<ProofStep>
    requires d <= Height(|leaves|)
    decreases Height(|leaves|) - d
  {
    if d == Height(|leaves|) then []
    else StepAt(hash, leaves, d, idx) + ProofFrom(hash, leaves, d + 1, idx / 2)
  }

  ghost function HonestProof(hash: Hash, leaves: seq<Bytes>, index: int): seq<ProofStep> {
    ProofFrom(hash, leaves, 0, index)
  }

  /** The sibling of idx within a level, and its side. */
  ghost function SiblingStep(level: seq<Bytes>, idx: int): seq<ProofStep> {
    if 0 <= idx / 2 < (|level| + 1) / 2 then
      if idx % 2 == 1 then [ProofStep(level[idx - 1], Left)]
      else [ProofStep(if idx + 1 < |level| then level[idx + 1] else level[idx], Right)]
    else []
  }

  lemma SiblingExtendsProof(hash: Hash, leaves: seq<Bytes>, d: nat, level: seq<Bytes>, idx: int)
    requires IsLevel(hash, leaves, d, level) && d < Height(|leaves|)
    ensures ProofFrom(hash, leaves, d, idx) == SiblingStep(level, idx) + ProofFrom(hash, leaves, d + 1, idx / 2)
  {
    var p := idx / 2;
    if 0 <= p < Width(|leaves|, d + 1) {
      if idx % 2 == 0 {
        assert idx == 2 * p && level[RightChild(|leaves|, d, p)] == Node(hash, leaves, d, RightChild(|leaves|, d, p));
      } else {
        assert idx - 1 == 2 * p && level[idx - 1] == Node(hash, leaves, d, idx - 1);
      }
    }
    assert SiblingStep(level, idx) == StepAt(hash, leaves, d, idx);
  }

  lemma SiblingIsInPair(level: seq<Bytes>, idx: int, p: nat)
    requires 2 * p < |level|
    ensures idx / 2 == p <==> idx == 2 * p || idx == 2 * p + 1
    ensures idx == 2 * p ==>
              SiblingStep(level, idx) ==
              [ProofStep(if 2 * p + 1 < |level| then level[2 * p + 1] else level[2 * p], Right)]
    ensures idx == 2 * p + 1 ==> SiblingStep(level, idx) == [ProofStep(level[2 * p], Left)]
  {
  }

  /** One level of the proof loop: hashes the pairs and records the sibling of idx. */
  method PairLevel(hash: Hash, level: seq<Bytes>, idx: int)
    returns (nextLevel: seq<Bytes>, found: seq<ProofStep>)
    ensures ArePairsHashed(hash, level, nextLevel) && |nextLevel| == (|level| + 1) / 2
    ensures found == SiblingStep(level, idx)
  {
    nextLevel := [];
    found := [];
    var i := 0;
    while i < |level|
      invariant i == 2 * |nextLevel| && ArePairsHashed(hash, level, nextLevel)
      invariant 0 <= idx / 2 < |nextLevel| ==> found == SiblingStep(level, idx)
      invariant !(0 <= idx / 2 < |nextLevel|) ==> found == []
    {
      var left := level[i];
      var right := if i + 1 < |level| then level[i + 1] else level[i];
      SiblingIsInPair(level, idx, |nextLevel|);
      if i == idx || i + 1 == idx {
        if idx == i {
          found := found + [ProofStep(right, Right)];
        } else {
          found := found + [ProofStep(left, Left)];
        }
      }
      NextPairIsHashed(hash, level, nextLevel);
      nextLevel := nextLevel + [hash(left + right)];
      i := i + 2;
    }
  }

  method ComputeMerkleProof(hash: Hash, hashes: seq<Bytes>, index: int) returns (proof: seq<ProofStep>)
    ensures proof == HonestProof(hash, hashes, index)
  {
    if |hashes| <= 1 {
      return [];
    }
    proof := [];
    var level := hashes;
    var idx := index;
    ghost var d := 0;
    while |level| > 1
      invariant d <= Height(|hashes|) && |level| >= 1
      invariant IsLevel(hash, hashes, d, level)
      invariant proof + ProofFrom(hash, hashes, d, idx) == HonestProof(hash, hashes, index)
      decreases |level|
    {
      var nextLevel, found := PairLevel(hash, level, idx);
      PairsMakeNextLevel(hash, hashes, d, level, nextLevel);
      SiblingExtendsProof(hash, hashes, d, level, idx);
      ghost var rest := ProofFrom(hash, hashes, d + 1, idx / 2);
      assert proof + (found + rest) == (proof + found) + rest;
      proof := proof + found;
      idx := idx / 2;
      level := nextLevel;
      d := d + 1;
    }
    SingleNodeIsRoot(hash, hashes, d, level);
  }

  /** Folding a proof over a starting hash. */
  function Climb(hash: Hash, current: Bytes, proof: seq<ProofStep>): Bytes
    decreases |proof|
  {
    if proof == [] then current
    else Climb(hash, hash(Joined(current, proof[0])), proof[1..])
  }

  function Joined(current: Bytes, step: ProofStep): Bytes {
    if step.position == Right then current + step.hash else step.hash + current
  }

  method VerifyMerkleProof(hash: Hash, chunkHash: Bytes, proof: seq<ProofStep>, merkleRoot: Bytes)
    returns (ok: bool)
    ensures ok <==> Climb(hash, chunkHash, proof) == merkleRoot
  {
    var current := chunkHash;
    var i := 0;
    while i < |proof|
      invariant 0 <= i <= |proof|
      invariant Climb(hash, current, proof[i..]) == Climb(hash, chunkHash, proof)
    {
      var step := proof[i];
      assert proof[i..][1..] == proof[i + 1..];
      if step.position == Right {
        current := hash(current + step.hash);
      } else {
        current := hash(step.hash + current);
      }
      i := i + 1;
    }
    return current == merkleRoot;
  }

  // ---- Completeness ----

  lemma ClimbOneStep(hash: Hash, current: Bytes, step: ProofStep, rest: seq<ProofStep>)
    ensures Climb(hash, current, [step] + rest) == Climb(hash, hash(Joined(current, step)), rest)
  {
    assert ([step] + rest)[1..] == rest;
  }

  /** From node i of height d the honest steps climb to the root, one step a level. */
  lemma {:induction false} ClimbReachesRoot(hash: Hash, leaves: seq<Bytes>, d: nat, i: nat)
    requires d <= Height(|leaves|) && i < Width(|leaves|, d) && leaves != []
    ensures Climb(hash, Node(hash, leaves, d, i), ProofFrom(hash, leaves, d, i)) == Root(hash, leaves)
    ensures |ProofFrom(hash, leaves, d, i)| == Height(|leaves|) - d
    decreases Height(|leaves|) - d
  {
    WidthAtHeight(|leaves|, d);
    if d < Height(|leaves|) {
      var step, rest := HonestStep(hash, leaves, d, i);
      ClimbReachesRoot(hash, leaves, d + 1, i / 2);
      ClimbOneStep(hash, Node(hash, leaves, d, i), step, rest);
      assert hash(Joined(Node(hash, leaves, d, i), step)) == Node(hash, leaves, d + 1, i / 2);
    }
  }

  lemma MerkleCompleteness(hash: Hash, leaves: seq<Bytes>, index: nat)
    requires index < |leaves|
    ensures Climb(hash, leaves[index], HonestProof(hash, leaves, index)) == Root(hash, leaves)
    ensures |HonestProof(hash, leaves, index)| == Height(|leaves|)
  {
    ClimbReachesRoot(hash, leaves, 0, index);
  }

  /** The height is the rounded-up binary logarithm. */
  lemma {:induction false} HeightIsCeilingLog(n: nat)
    requires n > 0
    ensures n <= Pow2(Height(n))
    ensures n > 1 ==> Pow2(Height(n) - 1) < n
  {
    if n > 1 {
      HeightIsCeilingLog((n + 1) / 2);
    }
  }

  // ---- Binding ----

  /** Every string hashed while the root is computed. */
  ghost function HashedForRoot(hash: Hash, leaves: seq<Bytes>): set<Bytes> {
    set d: nat, i: nat | d < Height(|leaves|) && i < Width(|leaves|, d + 1) :: Preimage(hash, leaves, d, i)
  }

  /** Every string hashed while a proof is checked. */
  ghost function HashedForProof(hash: Hash, current: Bytes, proof: seq<ProofStep>): set<Bytes>
    decreases |proof|
  {
    if proof == [] then {}
    else {Joined(current, proof[0])} + HashedForProof(hash, hash(Joined(current, proof[0])), proof[1..])
  }

  ghost predicate AllDigests(leaves: seq<Bytes>) {
    forall i :: 0 <= i < |leaves| ==> |leaves[i]| == DIGEST_SIZE
  }

  lemma NodeIsDigest(hash: Hash, leaves: seq<Bytes>, d: nat, i: nat)
    requires DigestsAreSized(hash) && AllDigests(leaves) && i < Width(|leaves|, d)
    ensures |Node(hash, leaves, d, i)| == DIGEST_SIZE
  {
  }

  ghost predicate SameAtHeight(hash: Hash, a: seq<Bytes>, b: seq<Bytes>, d: nat)
    requires |a| == |b|
  {
    forall i :: 0 <= i < Width(|a|, d) ==> Node(hash, a, d, i) == Node(hash, b, d, i)
  }

  /** Equal parents have equal children, when their preimages do not collide. */
  lemma ParentBindsChildren(hash: Hash, a: seq<Bytes>, b: seq<Bytes>, d: nat, p: nat)
    requires |a| == |b| && DigestsAreSized(hash) && AllDigests(a) && AllDigests(b)
    requires d < Height(|a|) && p < Width(|a|, d + 1)
    requires InjectiveOn(hash, HashedForRoot(hash, a) + HashedForRoot(hash, b))
    requires Node(hash, a, d + 1, p) == Node(hash, b, d + 1, p)
    ensures Node(hash, a, d, 2 * p) == Node(hash, b, d, 2 * p)
    ensures Node(hash, a, d, RightChild(|a|, d, p)) == Node(hash, b, d, RightChild(|a|, d, p))
  {
    var x, y := Preimage(hash, a, d, p), Preimage(hash, b, d, p);
    assert x in HashedForRoot(hash, a) && y in HashedForRoot(hash, b);
    assert hash(x) == hash(y);
    SameLengthPrefixesSplit(Node(hash, a, d, 2 * p), Node(hash, a, d, RightChild(|a|, d, p)),
                            Node(hash, b, d, 2 * p), Node(hash, b, d, RightChild(|a|, d, p)))
      by {
        NodeIsDigest(hash, a, d, 2 * p);
        NodeIsDigest(hash, b, d, 2 * p);
      }
  }

  lemma SameLengthPrefixesSplit(x: Bytes, x': Bytes, y: Bytes, y': Bytes)
    requires |x| == |y| && x + x' == y + y'
    ensures x == y && x' == y'
  {
    assert x == (x + x')[..|x|] && y == (y + y')[..|x|];
    assert x' == (x + x')[|x|..] && y' == (y + y')[|x|..];
  }

  /** Equality of one level passes to the level below it. */
  lemma LevelBindsLevelBelow(hash: Hash, a: seq<Bytes>, b: seq<Bytes>, d: nat)
    requires |a| == |b| && DigestsAreSized(hash) && AllDigests(a) && AllDigests(b)
    requires d < Height(|a|)
    requires InjectiveOn(hash, HashedForRoot(hash, a) + HashedForRoot(hash, b))
    requires SameAtHeight(hash, a, b, d + 1)
    ensures SameAtHeight(hash, a, b, d)
  {
    forall i | 0 <= i < Width(|a|, d)
      ensures Node(hash, a, d, i) == Node(hash, b, d, i)
    {
      assert i == 2 * (i / 2) || i == RightChild(|a|, d, i / 2);
      ParentBindsChildren(hash, a, b, d, i / 2);
    }
  }

  lemma {:induction false} RootBindsLevels(hash: Hash, a: seq<Bytes>, b: seq<Bytes>, d: nat)
    requires |a| == |b| && DigestsAreSized(hash) && AllDigests(a) && AllDigests(b)
    requires d <= Height(|a|) && a != []
    requires InjectiveOn(hash, HashedForRoot(hash, a) + HashedForRoot(hash, b))
    requires Root(hash, a) == Root(hash, b)
    ensures SameAtHeight(hash, a, b, d)
    decreases Height(|a|) - d
  {
    WidthAtHeight(|a|, d);
    if d < Height(|a|) {
      RootBindsLevels(hash, a, b, d + 1);
      LevelBindsLevelBelow(hash, a, b, d);
    }
  }

  /** Equal-length lists with the same root are equal, unless two of the strings that were
      actually hashed collide. */
  lemma MerkleBinding(hash: Hash, a: seq<Bytes>, b: seq<Bytes>)
    requires |a| == |b| && DigestsAreSized(hash) && AllDigests(a) && AllDigests(b)
    requires InjectiveOn(hash, HashedForRoot(hash, a) + HashedForRoot(hash, b))
    ensures Root(hash, a) == Root(hash, b) <==> a == b
  {
    if a != [] && Root(hash, a) == Root(hash, b) {
      RootBindsLevels(hash, a, b, 0);
      assert forall i :: 0 <= i < |a| ==> Node(hash, a, 0, i) == a[i] && Node(hash, b, 0, i) == b[i];
    }
  }

  ghost predicate SameDirections(p: seq<ProofStep>, q: seq<ProofStep>) {
    |p| == |q| && forall i :: 0 <= i < |p| ==> p[i].position == q[i].position
  }

  /** A proof with the honest directions that reaches the root from height d starts at the
      honest node and records the honest siblings. */
  lemma {:induction false} ProofBindsNode(hash: Hash, leaves: seq<Bytes>, d: nat, i: nat, current: Bytes,
                                          proof: seq<ProofStep>)
    requires leaves != [] && DigestsAreSized(hash) && AllDigests(leaves)
    requires d <= Height(|leaves|) && i < Width(|leaves|, d) && |current| == DIGEST_SIZE
    requires SameDirections(proof, ProofFrom(hash, leaves, d, i))
    requires InjectiveOn(hash, HashedForRoot(hash, leaves) + HashedForProof(hash, current, proof))
    requires Climb(hash, current, proof) == Root(hash, leaves)
    ensures current == Node(hash, leaves, d, i) && proof == ProofFrom(hash, leaves, d, i)
    decreases Height(|leaves|) - d
  {
    WidthAtHeight(|leaves|, d);
    if d < Height(|leaves|) {
      var step, rest := HonestStep(hash, leaves, d, i);
      TailsKeepDirections(proof, step, rest);
      var x := Joined(current, proof[0]);
      ProofBindsNode(hash, leaves, d + 1, i / 2, hash(x), proof[1..]);
      var y := Preimage(hash, leaves, d, i / 2);
      assert x in HashedForProof(hash, current, proof) && y in HashedForRoot(hash, leaves) && hash(x) == hash(y);
      NodeIsDigest(hash, leaves, d, i);
      JoinedSplits(current, proof[0], Node(hash, leaves, d, i), step);
      assert proof == [proof[0]] + proof[1..];
    }
  }

  lemma HonestSibling(hash: Hash, leaves: seq<Bytes>, d: nat, i: nat) returns (step: ProofStep)
    requires i < Width(|leaves|, d)
    ensures i / 2 < Width(|leaves|, d + 1)
    ensures StepAt(hash, leaves, d, i) == [step]
    ensures Joined(Node(hash, leaves, d, i), step) == Preimage(hash, leaves, d, i / 2)
  {
    var p := i / 2;
    if i % 2 == 0 {
      assert i == 2 * p;
      step := ProofStep(Node(hash, leaves, d, RightChild(|leaves|, d, p)), Right);
    } else {
      assert i == RightChild(|leaves|, d, p) && i - 1 == 2 * p;
      step := ProofStep(Node(hash, leaves, d, 2 * p), Left);
    }
  }

  /** Below the root the honest proof is the sibling, then the honest proof of the parent. */
  lemma HonestStep(hash: Hash, leaves: seq<Bytes>, d: nat, i: nat)
    returns (step: ProofStep, rest: seq<ProofStep>)
    requires d < Height(|leaves|) && i < Width(|leaves|, d)
    ensures i / 2 < Width(|leaves|, d + 1)
    ensures rest == ProofFrom(hash, leaves, d + 1, i / 2)
    ensures ProofFrom(hash, leaves, d, i) == [step] + rest
    ensures Joined(Node(hash, leaves, d, i), step) == Preimage(hash, leaves, d, i / 2)
  {
    step := HonestSibling(hash, leaves, d, i);
    rest := ProofFrom(hash, leaves, d + 1, i / 2);
  }

  lemma TailsKeepDirections(proof: seq<ProofStep>, step: ProofStep, rest: seq<ProofStep>)
    requires SameDirections(proof, [step] + rest)
    ensures proof[0].position == step.position && SameDirections(proof[1..], rest)
  {
    assert ([step] + rest)[0] == step;
    forall j | 0 <= j < |rest|
      ensures proof[1..][j].position == rest[j].position
    {
      assert proof[j + 1].position == ([step] + rest)[j + 1].position;
    }
  }

  lemma JoinedSplits(x: Bytes, p: ProofStep, y: Bytes, q: ProofStep)
    requires |x| == |y| && p.position == q.position && Joined(x, p) == Joined(y, q)
    ensures x == y && p == q
  {
    var j := Joined(x, p);
    if p.position == Right {
      assert x == j[..|x|] && y == j[..|x|] && p.hash == j[|x|..] && q.hash == j[|x|..];
    } else {
      assert |p.hash| == |q.hash|;
      assert x == j[|p.hash|..] && y == j[|p.hash|..] && p.hash == j[..|p.hash|] && q.hash == j[..|p.hash|];
    }
  }

  /** Only the honest leaf, with the honest proof, verifies along the path to index. */
  lemma MerkleProofBinding(hash: Hash, leaves: seq<Bytes>, index: nat, claimed: Bytes, proof: seq<ProofStep>)
    requires index < |leaves| && DigestsAreSized(hash) && AllDigests(leaves) && |claimed| == DIGEST_SIZE
    requires SameDirections(proof, HonestProof(hash, leaves, index))
    requires InjectiveOn(hash, HashedForRoot(hash, leaves) + HashedForProof(hash, claimed, proof))
    ensures Climb(hash, claimed, proof) == Root(hash, leaves) <==>
            claimed == leaves[index] && proof == HonestProof(hash, leaves, index)
  {
    if Climb(hash, claimed, proof) == Root(hash, leaves) {
      ProofBindsNode(hash, leaves, 0, index, claimed, proof);
    }
    MerkleCompleteness(hash, leaves, index);
  }

  /** Without the length check, shifting a byte from the sibling to the leaf goes unnoticed:
      the verifier accepts a claimed hash that is no leaf, for every hash function. */
  lemma OverlongLeafIsAccepted(hash: Hash, leaves: seq<Bytes>)
    returns (claimed: Bytes, proof: seq<ProofStep>)
    requires |leaves| >= 2 && AllDigests(leaves)
    ensures claimed !in leaves && Climb(hash, claimed, proof) == Root(hash, leaves)
    ensures SameDirections(proof, HonestProof(hash, leaves, 0))
  {
    MerkleCompleteness(hash, leaves, 0);
    var honest := HonestProof(hash, leaves, 0);
    assert Width(|leaves|, 0) == |leaves|;
    var step, rest := HonestStep(hash, leaves, 0, 0);
    assert step == ProofStep(leaves[1], Right);
    var sibling := honest[0].hash;
    claimed := leaves[0] + sibling[..1];
    proof := [ProofStep(sibling[1..], Right)] + honest[1..];
    assert claimed + sibling[1..] == leaves[0] + sibling;
    assert proof[1..] == honest[1..];
    assert |claimed| == DIGEST_SIZE + 1;
  }

  // ---- Equal roots for different lengths ----

  lemma {:induction false} WidthsAgreeAbove(n: nat, d: nat)
    requires n % 2 == 1
    ensures Width(n + 1, d + 1) == Width(n, d + 1)
  {
    if d > 0 {
      WidthsAgreeAbove(n, d - 1);
    }
  }

  lemma {:induction false} RepeatedLastLeafKeepsNodes(hash: Hash, leaves: seq<Bytes>, d: nat, i: nat)
    requires |leaves| % 2 == 1
    requires i < Width(|leaves|, d + 1) == Width(|leaves| + 1, d + 1)
    ensures Node(hash, leaves + [leaves[|leaves| - 1]], d + 1, i) == Node(hash, leaves, d + 1, i)
    decreases d
  {
    var n := |leaves|;
    var longer := leaves + [leaves[n - 1]];
    if d > 0 {
      WidthsAgreeAbove(n, d - 1);
      RepeatedLastLeafKeepsNodes(hash, leaves, d - 1, 2 * i);
      RepeatedLastLeafKeepsNodes(hash, leaves, d - 1, RightChild(n, d, i));
    } else {
      assert longer[2 * i] == leaves[2 * i];
      assert longer[RightChild(n + 1, 0, i)] == leaves[RightChild(n, 0, i)];
    }
    assert Preimage(hash, longer, d, i) == Preimage(hash, leaves, d, i);
  }

  /** Binding needs equal lengths: for an odd list of three or more leaves, repeating the
      last leaf leaves the root unchanged. */
  lemma RepeatedLastLeafKeepsRoot(hash: Hash, leaves: seq<Bytes>)
    requires |leaves| % 2 == 1 && |leaves| >= 3
    ensures Root(hash, leaves + [leaves[|leaves| - 1]]) == Root(hash, leaves)
  {
    var n := |leaves|;
    assert (n + 1) / 2 == (n + 2) / 2;
    assert Height(n) == Height(n + 1);
    WidthsAgreeAbove(n, Height(n) - 1);
    WidthAtHeight(n, Height(n));
    RepeatedLastLeafKeepsNodes(hash, leaves, Height(n) - 1, 0);
  }

  ghost function Parents(hash: Hash, leaves: seq<Bytes>): seq<Bytes> {
    seq((|leaves| + 1) / 2, p requires 0 <= p < (|leaves| + 1) / 2 => Parent(hash, leaves, p))
  }

  lemma {:induction false} ParentsShiftNodes(hash: Hash, leaves: seq<Bytes>, d: nat, i: nat)
    requires i < Width(|leaves|, d + 1)
    ensures i < Width(|Parents(hash, leaves)|, d) &&
            Node(hash, Parents(hash, leaves), d, i) == Node(hash, leaves, d + 1, i)
    decreases d
  {
    WidthShifts(|leaves|, d);
    if d == 0 {
      assert Node(hash, leaves, 1, i) == hash(Preimage(hash, leaves, 0, i));
    } else {
      var right := RightChild(|leaves|, d, i);
      WidthShifts(|leaves|, d - 1);
      ParentsShiftNodes(hash, leaves, d - 1, 2 * i);
      ParentsShiftNodes(hash, leaves, d - 1, right);
    }
  }

  /** Nor does the root tell leaves from inner nodes: the shorter list of their parents has it too. */
  lemma ParentsHaveSameRoot(hash: Hash, leaves: seq<Bytes>)
    requires |leaves| > 1
    ensures |Parents(hash, leaves)| < |leaves| && Root(hash, Parents(hash, leaves)) == Root(hash, leaves)
  {
    WidthAtHeight(|leaves|, Height(|leaves|));
    ParentsShiftNodes(hash, leaves, Height(|leaves|) - 1, 0);
  }

  // ---- The tree, spelled out ----

  /** The root by its levels: pairs are hashed left before right, an odd last one with itself. */
  lemma RootIsPairwise(hash: Hash, leaves: seq<Bytes>)
    ensures leaves == [] ==> Root(hash, leaves) == hash([])
    ensures |leaves| == 1 ==> Root(hash, leaves) == leaves[0]
    ensures |leaves| > 1 ==>
              Root(hash, leaves) ==
              Root(hash, seq((|leaves| + 1) / 2, p requires 0 <= p < (|leaves| + 1) / 2 =>
                hash(leaves[2 * p] + (if 2 * p + 1 < |leaves| then leaves[2 * p + 1] else leaves[2 * p]))))
  {
    if |leaves| > 1 {
      ParentsHaveSameRoot(hash, leaves);
      assert Parents(hash, leaves) ==
             seq((|leaves| + 1) / 2, p requires 0 <= p < (|leaves| + 1) / 2 =>
               hash(leaves[2 * p] + (if 2 * p + 1 < |leaves| then leaves[2 * p + 1] else leaves[2 * p])));
    }
  }

  /** Two leaves, and their proofs. */
  lemma TreeOfTwo(hash: Hash, a: Bytes, b: Bytes)
    ensures Root(hash, [a, b]) == hash(a + b)
    ensures HonestProof(hash, [a, b], 0) == [ProofStep(b, Right)]
    ensures HonestProof(hash, [a, b], 1) == [ProofStep(a, Left)]
  {
    var leaves := [a, b];
    RootIsPairwise(hash, [hash(a + b)]);
    ParentsHaveSameRoot(hash, leaves);
    assert Parents(hash, leaves) == [Parent(hash, leaves, 0)] == [hash(a + b)];
    assert Height(2) == 1;
    assert ProofFrom(hash, leaves, 1, 0) == [];
    assert StepAt(hash, leaves, 0, 0) == [ProofStep(b, Right)];
    assert StepAt(hash, leaves, 0, 1) == [ProofStep(a, Left)];
  }

  /** A sibling on the right is hashed after the hash so far, one on the left before it. */
  lemma ClimbingOneStep(hash: Hash, current: Bytes, sibling: Bytes, rest: seq<ProofStep>)
    ensures Climb(hash, current, []) == current
    ensures Climb(hash, current, [ProofStep(sibling, Right)] + rest) == Climb(hash, hash(current + sibling), rest)
    ensures Climb(hash, current, [ProofStep(sibling, Left)] + rest) == Climb(hash, hash(sibling + current), rest)
  {
    ClimbOneStep(hash, current, ProofStep(sibling, Right), rest);
    ClimbOneStep(hash, current, ProofStep(sibling, Left), rest);
  }

  /** Two complete trees of equal size side by side: the left root comes first. */
  lemma {:induction false} RootOfHalves(hash: Hash, a: seq<Bytes>, b: seq<Bytes>, n: nat)
    requires |a| == |b| == Pow2(n)
    ensures Root(hash, a + b) == hash(Root(hash, a) + Root(hash, b))
    decreases n
  {
    if n == 0 {
      RootIsPairwise(hash, a);
      RootIsPairwise(hash, b);
      TreeOfTwo(hash, a[0], b[0]);
      assert a + b == [a[0], b[0]];
    } else {
      assert Pow2(n) == 2 * Pow2(n - 1);
      Pow2IsPositive(n - 1);
      ParentsOfHalves(hash, a, b);
      ParentsHaveSameRoot(hash, a);
      ParentsHaveSameRoot(hash, b);
      ParentsHaveSameRoot(hash, a + b);
      RootOfHalves(hash, Parents(hash, a), Parents(hash, b), n - 1);
    }
  }

  lemma {:induction false} Pow2IsPositive(n: nat)
    ensures Pow2(n) > 0
  {
    if n > 0 {
      Pow2IsPositive(n - 1);
    }
  }

  lemma ParentsOfHalves(hash: Hash, a: seq<Bytes>, b: seq<Bytes>)
    requires |a| % 2 == 0
    ensures Parents(hash, a + b) == Parents(hash, a) + Parents(hash, b)
  {
    var h := |a| / 2;
    forall p | 0 <= p < (|a + b| + 1) / 2
      ensures Parents(hash, a + b)[p] == (Parents(hash, a) + Parents(hash, b))[p]
    {
      if p >= h {
        assert (a + b)[2 * p] == b[2 * (p - h)];
      }
    }
  }
}
