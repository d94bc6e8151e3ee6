/** What the written chunks and manifests hold, and how every reader ends, chunk by chunk. */
module FileOutcomes {
  import opened Primitives
  import opened Sorting
  import opened Crypto
  import opened Chunker
  import opened Pipeline
  import opened FileRoundTrip
  import Merkle

  // ---- What the writers put out ----

  /** With a password every chunk is an envelope of version 1 that carries the salt of the one
      key, and its own nonce, under which its compressed piece is sealed. */
  lemma ChunksCarryTheirNonce(s: Suite, pieces: seq<Bytes>, password: Bytes, r: Randomness, i: nat)
    requires Lawful(s) && WellDrawn(r) && password != [] && i < |pieces|
    ensures var chunk := EncodeAll(s, pieces, password, r)[i];
            var key, zipped := s.derive(password, r.salt), s.compress(pieces[i]);
            Parse(chunk) == Some(Envelope(1, r.salt, r.nonce(i), s.tag(key, r.nonce(i), zipped),
                                          s.seal(key, r.nonce(i), zipped)))
  {
    var key, zipped := s.derive(password, r.salt), s.compress(pieces[i]);
    var e := Envelope(1, r.salt, r.nonce(i), s.tag(key, r.nonce(i), zipped), s.seal(key, r.nonce(i), zipped));
    ParseIsInverseOfLayout(e, Layout(e));
  }

  /** All chunks of a file share a key, so no two of them may share a nonce; they do not if the
      drawn nonces are distinct. */
  lemma NoNonceIsReused(s: Suite, pieces: seq<Bytes>, password: Bytes, r: Randomness, i: nat, j: nat)
    requires Lawful(s) && WellDrawn(r) && password != [] && i < j < |pieces|
    ensures var chunks := EncodeAll(s, pieces, password, r);
            && Parse(chunks[i]).Some? && Parse(chunks[j]).Some?
            && Parse(chunks[i]).value.salt == Parse(chunks[j]).value.salt
            && (Parse(chunks[i]).value.nonce == Parse(chunks[j]).value.nonce <==> r.nonce(i) == r.nonce(j))
  {
    ChunksCarryTheirNonce(s, pieces, password, r, i);
    ChunksCarryTheirNonce(s, pieces, password, r, j);
  }

  /** The streaming writer seals the raw piece under its own salt and nonce. */
  lemma FreshChunksCarryTheirSalt(s: Suite, pieces: seq<Bytes>, password: Bytes, r: FreshRandomness, i: nat)
    requires Lawful(s) && FreshlyDrawn(r) && password != [] && i < |pieces|
    ensures var key := s.derive(password, r.salt(i));
            Parse(FreshChunks(s, pieces, password, r)[i]) ==
            Some(Envelope(1, r.salt(i), r.nonce(i), s.tag(key, r.nonce(i), pieces[i]),
                          s.seal(key, r.nonce(i), pieces[i])))
  {
    var key := s.derive(password, r.salt(i));
    var e := Envelope(1, r.salt(i), r.nonce(i), s.tag(key, r.nonce(i), pieces[i]),
                      s.seal(key, r.nonce(i), pieces[i]));
    ParseIsInverseOfLayout(e, Layout(e));
  }

  /** Without a password chunks are stored as they are, compressed by `chunk_file` only. */
  lemma PlainChunks(s: Suite, pieces: seq<Bytes>, r: Randomness, each: FreshRandomness, i: nat)
    requires i < |pieces|
    ensures EncodeAll(s, pieces, [], r)[i] == s.compress(pieces[i])
    ensures FreshChunks(s, pieces, [], each)[i] == pieces[i]
  {
  }

  /** What a written manifest says of the file and of each chunk. */
  lemma ManifestDescribesTheFile(s: Suite, name: string, data: Bytes, size: int, datas: seq<Bytes>, encrypted: bool,
                                 compression: string)
    ensures var m := ManifestOf(s, name, data, size, datas, encrypted, compression);
            && m.originalFilename == name && m.originalSize == |data| && m.fileHash == s.hash(data)
            && m.chunkSize == size && m.compression == compression && |m.chunks| == |datas|
            && (forall i :: 0 <= i < |datas| ==>
                  m.chunks[i] == ChunkInfo(i, s.hash(datas[i]), |datas[i]|, encrypted))
            && m.merkleRoot == Merkle.Root(s.hash, seq(|datas|, i requires 0 <= i < |datas| => s.hash(datas[i])))
  {
    assert Hashes(s, datas) == seq(|datas|, i requires 0 <= i < |datas| => s.hash(datas[i]));
  }

  // ---- One chunk ----

  /** A chunk that is not encrypted, or read without a password, is taken as it is; otherwise it
      is opened, under the key at hand or else under that of its own salt. */
  lemma DecodingOneChunk(s: Suite, p: Pair, password: Bytes, key: Bytes)
    ensures !p.0.encrypted || password == [] ==> forall k :: DecodeChunk(s, p, password, k, false) == Ok(p.1)
    ensures p.0.encrypted && password != [] ==>
              forall d :: DecodeChunk(s, p, password, Some(key), false) == Ok(d) <==>
                          DecryptWithKey(s, p.1, key) == Ok(d)
    ensures p.0.encrypted && password != [] ==>
              forall d :: DecodeChunk(s, p, password, None, false) == Ok(d) <==>
                          DecryptWithKey(s, p.1, s.derive(password, SaltOf(p.1))) == Ok(d)
  {
  }

  /** Decompression comes after that, and its failure is a failure of its own. */
  lemma DecompressingOneChunk(s: Suite, p: Pair, password: Bytes, key: Option<Bytes>)
    ensures var plain, r := DecodeChunk(s, p, password, key, false), DecodeChunk(s, p, password, key, true);
            && (plain.Err? ==> r == plain && plain.error.BadEnvelope?)
            && (plain.Ok? ==> forall d :: r == Ok(d) <==> s.decompress(plain.value) == Some(d))
            && (plain.Ok? && r.Err? ==> r.error == BadFrame)
  {
  }

  // ---- Readers stop at the first chunk that fails ----

  type Outcome = Result<Bytes, MergeError>

  /** Given what becomes of each chunk, the pieces up to the first failure, and that failure. */
  ghost predicate StopsAtFirstFailure(w: Written, outcomes: seq<Outcome>) {
    var stops :=
      && |w.pieces| <= |outcomes|
      && (forall i :: 0 <= i < |w.pieces| ==> outcomes[i] == Ok(w.pieces[i]))
      && (w.error == None <==> |w.pieces| == |outcomes|)
      && (w.error.Some? ==> outcomes[|w.pieces|] == Err(w.error.value));
    stops
  }

  /** There is only one way to do that. */
  lemma FirstFailureIsUnique(w: Written, w': Written, outcomes: seq<Outcome>)
    requires StopsAtFirstFailure(w, outcomes) && StopsAtFirstFailure(w', outcomes)
    ensures w == w'
  {
    var n := if |w.pieces| <= |w'.pieces| then |w.pieces| else |w'.pieces|;
    assert w.pieces[..n] == w'.pieces[..n];
    assert |w.pieces| == |w'.pieces| == n;
    assert w.pieces == w.pieces[..n] && w'.pieces == w'.pieces[..n];
  }

  lemma StopsLater(d: Bytes, rest: Written, outcomes: seq<Outcome>)
    requires outcomes != [] && outcomes[0] == Ok(d) && StopsAtFirstFailure(rest, outcomes[1..])
    ensures StopsAtFirstFailure(Written([d] + rest.pieces, rest.error), outcomes)
  {
  }

  function Decoded(s: Suite, ordered: seq<Pair>, password: Bytes, key: Option<Bytes>, zstd: bool): seq<Outcome> {
    seq(|ordered|, i requires 0 <= i < |ordered| => DecodeChunk(s, ordered[i], password, key, zstd))
  }

  lemma {:induction false} DecodeAllStops(s: Suite, ordered: seq<Pair>, password: Bytes, key: Option<Bytes>,
                                          zstd: bool)
    ensures StopsAtFirstFailure(DecodeAll(s, ordered, password, key, zstd), Decoded(s, ordered, password, key, zstd))
  {
    if ordered != [] {
      var outcomes := Decoded(s, ordered, password, key, zstd);
      DecodeAllStops(s, ordered[1..], password, key, zstd);
      assert outcomes[1..] == Decoded(s, ordered[1..], password, key, zstd);
      if outcomes[0].Ok? {
        StopsLater(outcomes[0].value, DecodeAll(s, ordered[1..], password, key, zstd), outcomes);
      }
    }
  }

  /** A stored chunk decoded with a key, or the failure to load it. */
  function LoadedOutcome(s: Suite, store: Store, info: ChunkInfo, password: Bytes, key: Option<Bytes>, zstd: bool)
    : Outcome
  {
    if info.chunkHash in store then DecodeChunk(s, (info, store[info.chunkHash]), password, key, zstd)
    else Err(ChunkMissing(info.chunkHash))
  }

  function Loaded(s: Suite, store: Store, ordered: seq<ChunkInfo>, password: Bytes, zstd: bool): seq<Outcome> {
    seq(|ordered|, i requires 0 <= i < |ordered| => LoadedOutcome(s, store, ordered[i], password, None, zstd))
  }

  /** The pipeline merge: each chunk loaded in turn and opened under the key of its own salt. */
  lemma {:induction false} LoadDecodeStops(s: Suite, store: Store, ordered: seq<ChunkInfo>, password: Bytes, zstd: bool)
    ensures StopsAtFirstFailure(LoadDecode(s, store, ordered, password, zstd),
                                Loaded(s, store, ordered, password, zstd))
  {
    if ordered != [] {
      var outcomes := Loaded(s, store, ordered, password, zstd);
      LoadDecodeStops(s, store, ordered[1..], password, zstd);
      assert outcomes[1..] == Loaded(s, store, ordered[1..], password, zstd);
      if outcomes[0].Ok? {
        StopsLater(outcomes[0].value, LoadDecode(s, store, ordered[1..], password, zstd), outcomes);
      }
    }
  }

  /** The key of the first encrypted chunk among the first n, if there is one. */
  function FirstKey(s: Suite, store: Store, ordered: seq<ChunkInfo>, n: nat, password: Bytes): Option<Bytes>
    requires n <= |ordered|
    decreases n
  {
    if n == 0 || password == [] then None
    else
      match FirstKey(s, store, ordered, n - 1, password)
      case Some(key) => Some(key)
      case None =>
        if ordered[n - 1].encrypted && ordered[n - 1].chunkHash in store
        then Some(s.derive(password, SaltOf(store[ordered[n - 1].chunkHash])))
        else None
  }

  function Streams(s: Suite, store: Store, ordered: seq<ChunkInfo>, password: Bytes, zstd: bool): seq<Outcome> {
    seq(|ordered|, i requires 0 <= i < |ordered| =>
      LoadedOutcome(s, store, ordered[i], password, FirstKey(s, store, ordered, i + 1, password), zstd))
  }

  lemma {:induction false} StreamStopsFrom(s: Suite, store: Store, ordered: seq<ChunkInfo>, n: nat, password: Bytes,
                                           zstd: bool)
    requires n <= |ordered|
    ensures StopsAtFirstFailure(
              StreamDecode(s, store, ordered[n..], password, FirstKey(s, store, ordered, n, password), zstd),
              Streams(s, store, ordered, password, zstd)[n..])
    decreases |ordered| - n
  {
    if n < |ordered| {
      var outcomes := Streams(s, store, ordered, password, zstd)[n..];
      var key := FirstKey(s, store, ordered, n + 1, password);
      StreamStopsFrom(s, store, ordered, n + 1, password, zstd);
      assert ordered[n..][1..] == ordered[n + 1..];
      assert outcomes[1..] == Streams(s, store, ordered, password, zstd)[n + 1..];
      assert outcomes[0] == LoadedOutcome(s, store, ordered[n], password, key, zstd);
      if outcomes[0].Ok? {
        StopsLater(outcomes[0].value, StreamDecode(s, store, ordered[n + 1..], password, key, zstd), outcomes);
      }
    }
  }

  /** The stream: each chunk loaded in turn and opened under the key of the first encrypted one. */
  lemma StreamStops(s: Suite, store: Store, m: FileManifest, password: Bytes)
    ensures StopsAtFirstFailure(Streamed(s, store, m, password),
                                Streams(s, store, Sort(InfoByIndex, m.chunks), password, m.compression == "zstd"))
  {
    var ordered := Sort(InfoByIndex, m.chunks);
    StreamStopsFrom(s, store, ordered, 0, password, m.compression == "zstd");
    assert ordered[0..] == ordered;
    assert Streams(s, store, ordered, password, m.compression == "zstd")[0..] ==
           Streams(s, store, ordered, password, m.compression == "zstd");
  }

  // ---- How the merges end ----

  /** Chunk i is the first whose digest is not the manifest's. */
  ghost predicate FirstBadHash(s: Suite, ordered: seq<Pair>, i: nat) {
    && i < |ordered| && s.hash(ordered[i].1) != ordered[i].0.chunkHash
    && forall j :: 0 <= j < i ==> s.hash(ordered[j].1) == ordered[j].0.chunkHash
  }

  lemma {:induction false} MismatchIsFirst(s: Suite, ordered: seq<Pair>, i: nat)
    ensures FirstBadHash(s, ordered, i) ==> FirstMismatch(s, ordered) == Some(ordered[i].0.index)
    ensures FirstMismatch(s, ordered) == None <==>
            forall j :: 0 <= j < |ordered| ==> s.hash(ordered[j].1) == ordered[j].0.chunkHash
    decreases |ordered|
  {
    if ordered != [] {
      MismatchIsFirst(s, ordered[1..], if i > 0 then i - 1 else 0);
      if FirstBadHash(s, ordered, i) && i > 0 {
        assert FirstBadHash(s, ordered[1..], i - 1);
      }
      if FirstMismatch(s, ordered) == None {
        forall j | 0 <= j < |ordered|
          ensures s.hash(ordered[j].1) == ordered[j].0.chunkHash
        {
          if j > 0 {
            assert ordered[1..][j - 1] == ordered[j];
          }
        }
      }
    }
  }

  lemma DecodingErrors(s: Suite, ordered: seq<Pair>, password: Bytes, key: Option<Bytes>, zstd: bool)
    ensures var w := DecodeAll(s, ordered, password, key, zstd);
            w.error.Some? ==> w.error.value.BadEnvelope? || w.error.value.BadFrame?
  {
    DecodeAllStops(s, ordered, password, key, zstd);
    var w := DecodeAll(s, ordered, password, key, zstd);
    if w.error.Some? {
      DecompressingOneChunk(s, ordered[|w.pieces|], password, key);
    }
  }

  /** Which of its checks refuses a file in `merge_chunks`, in the order in which they are made:
      chunk digests, Merkle root, buffer size, file digest. */
  lemma MergeRefusalsAreExact(s: Suite, m: FileManifest, datas: seq<Bytes>, password: Bytes, i: nat)
    ensures var ordered := Ordered(m.chunks, datas);
            var r := Merged(s, m, datas, password);
            var w := DecodeAll(s, ordered, password, SharedKey(s, ordered, password), m.compression == "zstd");
            var hashesMatch := forall j :: 0 <= j < |ordered| ==> s.hash(ordered[j].1) == ordered[j].0.chunkHash;
            var rootMatches := m.merkleRoot == [] || Merkle.Root(s.hash, DataHashes(s, ordered)) == m.merkleRoot;
            && (FirstBadHash(s, ordered, i) ==> r == Err(ChunkHashMismatch(ordered[i].0.index)))
            && (r == Err(MerkleMismatch) <==> hashesMatch && !rootMatches)
            && (r == Err(NegativeBufferSize) <==> hashesMatch && rootMatches && m.originalSize < 0)
            && (r == Err(IntegrityFailed) <==>
                hashesMatch && rootMatches && m.originalSize >= 0 && w.error == None
                && s.hash(Join(w.pieces)) != m.fileHash)
  {
    var ordered := Ordered(m.chunks, datas);
    MismatchIsFirst(s, ordered, i);
    DecodingErrors(s, ordered, password, SharedKey(s, ordered, password), m.compression == "zstd");
  }

  /** The one key of `merge_chunks`: that of the first chunk in order, if it is encrypted. */
  lemma SharedKeyIsTheFirst(s: Suite, ordered: seq<Pair>, password: Bytes)
    ensures SharedKey(s, ordered, password) == None <==>
            password == [] || ordered == [] || !ordered[0].0.encrypted
    ensures SharedKey(s, ordered, password).Some? ==>
              SharedKey(s, ordered, password).value == s.derive(password, SaltOf(ordered[0].1))
  {
  }

  /** What a merge to disk leaves there: the whole file and no error exactly when its digest is
      right, nothing when it is wrong, and after any other failure the pieces written so far. */
  lemma WhatIsLeftOnDisk(s: Suite, fileHash: Bytes, w: Written, file: Bytes)
    requires w.error != Some(IntegrityFailed)
    ensures var r := OnDisk(s, fileHash, w);
            && (r.error == None <==> w.error == None && s.hash(Join(w.pieces)) == fileHash)
            && (r.error == Some(IntegrityFailed) <==> w.error == None && s.hash(Join(w.pieces)) != fileHash)
            && (r.error == Some(IntegrityFailed) <==> r.file == None)
            && (r.file == Some(file) <==> file == Join(w.pieces) && (w.error == None ==> s.hash(file) == fileHash))
            && (w.error.Some? ==> r.error == w.error)
  {
  }
}
