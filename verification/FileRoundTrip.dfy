/** What the writers and readers of the file engine promise each other. */
module FileRoundTrip {
  import opened Primitives
  import opened Sorting
  import opened Crypto
  import opened Chunker
  import opened Pipeline
  import Merkle

  // ---- Sorting pairs and sorting manifest entries ----

  function Firsts(pairs: seq<Pair>): seq<ChunkInfo> {
    seq(|pairs|, i requires 0 <= i < |pairs| => pairs[i].0)
  }

  lemma {:induction false} InsertCommutesWithFirsts(p: Pair, pairs: seq<Pair>)
    ensures Firsts(Insert(ByIndex, p, pairs)) == Insert(InfoByIndex, p.0, Firsts(pairs))
  {
    if pairs != [] {
      assert Firsts(pairs)[1..] == Firsts(pairs[1..]);
      if !ByIndex(p, pairs[0]) {
        InsertCommutesWithFirsts(p, pairs[1..]);
      }
    }
  }

  lemma {:induction false} SortCommutesWithFirsts(pairs: seq<Pair>)
    ensures Firsts(Sort(ByIndex, pairs)) == Sort(InfoByIndex, Firsts(pairs))
  {
    if pairs != [] {
      assert Firsts(pairs)[1..] == Firsts(pairs[1..]);
      SortCommutesWithFirsts(pairs[1..]);
      InsertCommutesWithFirsts(pairs[0], Sort(ByIndex, pairs[1..]));
    }
  }

  lemma ByIndexIsTotalPreorder()
    ensures TotalPreorder(ByIndex)
  {
  }

  /** Entries numbered by position are recovered from any shuffle. */
  lemma SortUndoesShuffle(shuffled: seq<Pair>, original: seq<Pair>)
    requires multiset(shuffled) == multiset(original)
    requires forall i :: 0 <= i < |original| ==> original[i].0.index == i
    ensures Sort(ByIndex, shuffled) == original
  {
    ByIndexIsTotalPreorder();
    SortRecovers(ByIndex, shuffled, original);
  }

  // ---- Choosing a key ----

  /** Every encrypted chunk carries the same salt. */
  ghost predicate CommonSalt(pairs: seq<Pair>, salt: Bytes) {
    forall p :: p in pairs && p.0.encrypted ==> SaltOf(p.1) == salt
  }

  /** Under a common salt the shared key decodes every chunk as its own salt would. */
  lemma {:induction false} SharedKeyDecodesAll(s: Suite, ordered: seq<Pair>, password: Bytes, salt: Bytes, zstd: bool)
    requires CommonSalt(ordered, salt)
    ensures DecodeAll(s, ordered, password, Some(s.derive(password, salt)), zstd) ==
            DecodeAll(s, ordered, password, None, zstd)
  {
    if ordered != [] {
      assert ordered[0] in ordered;
      SharedKeyDecodesAll(s, ordered[1..], password, salt, zstd);
    }
  }

  ghost predicate Holds(store: Store, pairs: seq<Pair>) {
    forall p :: p in pairs ==> p.0.chunkHash in store && store[p.0.chunkHash] == p.1
  }

  lemma {:induction false} LoadingIsDecoding(s: Suite, store: Store, ordered: seq<Pair>, password: Bytes, zstd: bool)
    requires Holds(store, ordered)
    ensures LoadDecode(s, store, Firsts(ordered), password, zstd) == DecodeAll(s, ordered, password, None, zstd)
  {
    if ordered != [] {
      assert ordered[0] in ordered;
      assert Firsts(ordered)[1..] == Firsts(ordered[1..]);
      assert ordered[0] == (Firsts(ordered)[0], store[Firsts(ordered)[0].chunkHash]);
      LoadingIsDecoding(s, store, ordered[1..], password, zstd);
    }
  }

  lemma {:induction false} StreamingIsDecoding(s: Suite, store: Store, ordered: seq<Pair>, password: Bytes, salt: Bytes,
                                               key: Option<Bytes>, zstd: bool)
    requires Holds(store, ordered) && CommonSalt(ordered, salt)
    requires key == None || key == Some(s.derive(password, salt))
    ensures StreamDecode(s, store, Firsts(ordered), password, key, zstd) ==
            DecodeAll(s, ordered, password, None, zstd)
  {
    if ordered != [] {
      assert ordered[0] in ordered;
      assert Firsts(ordered)[1..] == Firsts(ordered[1..]);
      assert ordered[0] == (Firsts(ordered)[0], store[Firsts(ordered)[0].chunkHash]);
      var key' := LazyKey(s, ordered[0].0, ordered[0].1, password, key);
      StreamingIsDecoding(s, store, ordered[1..], password, salt, key', zstd);
    }
  }

  /** What only `merge_chunks` looks at before it decodes: chunk hashes, Merkle root, size. */
  ghost predicate EarlyChecksPass(s: Suite, m: FileManifest, datas: seq<Bytes>) {
    && FirstMismatch(s, Ordered(m.chunks, datas)) == None
    && (m.merkleRoot == [] || Merkle.Root(s.hash, DataHashes(s, Ordered(m.chunks, datas))) == m.merkleRoot)
    && m.originalSize >= 0
  }

  /** On any manifest whose encrypted chunks share a salt, the four readers put out the same
      pieces and stop on the same exception; only the final checks differ. */
  lemma ReadersAgree(s: Suite, m: FileManifest, datas: seq<Bytes>, store: Store, password: Bytes, salt: Bytes)
    returns (w: Written)
    requires |datas| == |m.chunks|
    requires Holds(store, Zip(m.chunks, datas)) && CommonSalt(Zip(m.chunks, datas), salt)
    ensures w == DecodeAll(s, Ordered(m.chunks, datas), password, None, m.compression == "zstd")
    ensures Streamed(s, store, m, password) == w
    ensures MergedToDisk(s, m, datas, password) == OnDisk(s, m.fileHash, w)
    ensures PipelineMerged(s, store, m, password) == OnDisk(s, m.fileHash, w)
    ensures Merged(s, m, datas, password).Ok? ==> Merged(s, m, datas, password) == Checked(s, m.fileHash, w)
    ensures EarlyChecksPass(s, m, datas) ==> Merged(s, m, datas, password) == Checked(s, m.fileHash, w)
  {
    var zstd := m.compression == "zstd";
    var pairs := Zip(m.chunks, datas);
    var ordered := Sort(ByIndex, pairs);
    assert Firsts(pairs) == m.chunks;
    SortCommutesWithFirsts(pairs);
    forall p | p in ordered
      ensures p in pairs
    {
      SortMember(ByIndex, pairs, p);
    }
    w := DecodeAll(s, ordered, password, None, zstd);
    LoadingIsDecoding(s, store, ordered, password, zstd);
    StreamingIsDecoding(s, store, ordered, password, salt, None, zstd);
    SharedKeyDecodesAll(s, ordered, password, salt, zstd);
    if ordered != [] {
      assert ordered[0] in ordered;
    }
  }

  /** Exactly when the two merges of lists agree, on any manifest and data: `merge_chunks`
      succeeds if and only if its early checks pass and the other merge succeeds, with the same
      bytes; so they differ exactly where the checks fail and the other merge succeeds. */
  lemma MergesAgreeExactly(s: Suite, m: FileManifest, datas: seq<Bytes>, password: Bytes)
    ensures var inMemory := Merged(s, m, datas, password);
            var onDisk := MergedToDisk(s, m, datas, password);
            && (inMemory.Ok? <==> EarlyChecksPass(s, m, datas) && onDisk.error == None)
            && (inMemory.Ok? ==> onDisk == DiskOutcome(None, Some(inMemory.value)))
            && ((inMemory.Ok? <==> onDisk.error == None) <==> EarlyChecksPass(s, m, datas) || onDisk.error.Some?)
            && (EarlyChecksPass(s, m, datas) && inMemory.Err? ==> onDisk.error == Some(inMemory.error))
  {
  }

  // ---- Round trip ----

  lemma DecodeUndoesEncode(s: Suite, i: nat, raw: Bytes, password: Bytes, r: Randomness, key: Option<Bytes>)
    requires Lawful(s) && WellDrawn(r)
    requires key == None || key == Some(s.derive(password, r.salt))
    ensures var data := EncodeChunk(s, raw, password, r, i);
            DecodeChunk(s, (InfoAt(s, i, data, password != []), data), password, key, true) == Ok(raw)
    ensures password != [] ==> SaltOf(EncodeChunk(s, raw, password, r, i)) == r.salt
  {
    if password != [] {
      DecryptUndoesEncrypt(s, s.compress(raw), s.derive(password, r.salt), r.salt, r.nonce(i));
    }
  }

  lemma {:induction false} PiecewiseDecoding(s: Suite, ordered: seq<Pair>, pieces: seq<Bytes>, password: Bytes,
                                             key: Option<Bytes>, zstd: bool)
    requires |ordered| == |pieces|
    requires forall i :: 0 <= i < |ordered| ==> DecodeChunk(s, ordered[i], password, key, zstd) == Ok(pieces[i])
    ensures DecodeAll(s, ordered, password, key, zstd) == Written(pieces, None)
  {
    if ordered != [] {
      PiecewiseDecoding(s, ordered[1..], pieces[1..], password, key, zstd);
      assert pieces == [pieces[0]] + pieces[1..];
    }
  }

  lemma {:induction false} MatchingHashesPass(s: Suite, ordered: seq<Pair>)
    requires forall i :: 0 <= i < |ordered| ==> s.hash(ordered[i].1) == ordered[i].0.chunkHash
    ensures FirstMismatch(s, ordered) == None
  {
    if ordered != [] {
      MatchingHashesPass(s, ordered[1..]);
    }
  }

  /** The manifest and chunks that `chunk_file` returns, entries shuffled together with data. */
  ghost predicate IsShuffleOfChunkFile(s: Suite, m: FileManifest, datas: seq<Bytes>, name: string, data: Bytes,
                                       size: int, password: Bytes, r: Randomness)
  {
    var encoded := EncodeAll(s, Pieces(data, size), password, r);
    var written := ManifestOf(s, name, data, size, encoded, password != [], "zstd");
    && |datas| == |m.chunks|
    && m == written.(chunks := m.chunks)
    && multiset(Zip(m.chunks, datas)) == multiset(Zip(written.chunks, encoded))
  }

  /** As written, every chunk decodes to its piece under its own salt. */
  lemma WrittenPairsDecode(s: Suite, pieces: seq<Bytes>, password: Bytes, r: Randomness)
    requires Lawful(s) && WellDrawn(r)
    ensures var encoded := EncodeAll(s, pieces, password, r);
            var original := Zip(Infos(s, encoded, password != []), encoded);
            && FirstMismatch(s, original) == None
            && DataHashes(s, original) == Hashes(s, encoded)
            && DecodeAll(s, original, password, None, true) == Written(pieces, None)
            && CommonSalt(original, if password != [] then r.salt else [])
  {
    var encoded := EncodeAll(s, pieces, password, r);
    var original := Zip(Infos(s, encoded, password != []), encoded);
    MatchingHashesPass(s, original);
    forall i | 0 <= i < |original|
      ensures DecodeChunk(s, original[i], password, None, true) == Ok(pieces[i])
      ensures original[i].0.encrypted ==> SaltOf(original[i].1) == r.salt
    {
      DecodeUndoesEncode(s, i, pieces[i], password, r, None);
    }
    PiecewiseDecoding(s, original, pieces, password, None, true);
  }

  /** Sorting recovers the written order, and every chunk decodes to its piece under the
      shared key and under its own salt alike. */
  lemma ShuffleDecodes(s: Suite, m: FileManifest, datas: seq<Bytes>, name: string, data: Bytes, size: int,
                       password: Bytes, r: Randomness)
    requires Lawful(s) && WellDrawn(r)
    requires IsShuffleOfChunkFile(s, m, datas, name, data, size, password, r)
    ensures var pieces := Pieces(data, size);
            var encoded := EncodeAll(s, pieces, password, r);
            && Ordered(m.chunks, datas) == Zip(Infos(s, encoded, password != []), encoded)
            && FirstMismatch(s, Ordered(m.chunks, datas)) == None
            && DataHashes(s, Ordered(m.chunks, datas)) == Hashes(s, encoded)
            && DecodeAll(s, Ordered(m.chunks, datas), password, None, true) == Written(pieces, None)
            && CommonSalt(Ordered(m.chunks, datas), if password != [] then r.salt else [])
  {
    var encoded := EncodeAll(s, Pieces(data, size), password, r);
    SortUndoesShuffle(Zip(m.chunks, datas), Zip(Infos(s, encoded, password != []), encoded));
    WrittenPairsDecode(s, Pieces(data, size), password, r);
  }

  /** `merge_chunks` returns the original bytes from every shuffle of what `chunk_file` wrote,
      exactly when the chunk size is not zero (or there was nothing to read). */
  lemma MergeRoundTrip(s: Suite, m: FileManifest, datas: seq<Bytes>, name: string, data: Bytes, size: int,
                       password: Bytes, r: Randomness)
    requires Lawful(s) && WellDrawn(r)
    requires IsShuffleOfChunkFile(s, m, datas, name, data, size, password, r)
    ensures Merged(s, m, datas, password) == Ok(data) <==> size != 0 || data == []
  {
    ShuffleDecodes(s, m, datas, name, data, size, password, r);
    var ordered := Ordered(m.chunks, datas);
    SharedKeyDecodesAll(s, ordered, password, if password != [] then r.salt else [], true);
    if ordered != [] {
      assert ordered[0] in ordered;
    }
    PiecesPartitionFile(data, size);
  }

  /** `merge_chunks_to_disk` reports a verified Merkle root without looking at it: with any
      other root in the manifest it still returns the file, and `merge_chunks` refuses. */
  lemma DiskMergeSkipsTheMerkleRoot(s: Suite, m: FileManifest, datas: seq<Bytes>, name: string, data: Bytes, size: int,
                                    password: Bytes, r: Randomness, root: Bytes)
    requires Lawful(s) && WellDrawn(r) && size != 0
    requires IsShuffleOfChunkFile(s, m, datas, name, data, size, password, r)
    requires root != [] && root != m.merkleRoot
    ensures MergedToDisk(s, m.(merkleRoot := root), datas, password) == DiskOutcome(None, Some(data))
    ensures Merged(s, m.(merkleRoot := root), datas, password) == Err(MerkleMismatch)
  {
    MergeRoundTrip(s, m, datas, name, data, size, password, r);
    ShuffleDecodes(s, m, datas, name, data, size, password, r);
    MergesAgreeExactly(s, m, datas, password);
  }

  /** From a store holding the chunks, every reader of `chunk_file` output returns the file. */
  lemma EveryReaderRoundTrips(s: Suite, m: FileManifest, datas: seq<Bytes>, name: string, data: Bytes, size: int,
                              password: Bytes, r: Randomness, store: Store)
    requires Lawful(s) && WellDrawn(r) && size != 0
    requires IsShuffleOfChunkFile(s, m, datas, name, data, size, password, r)
    requires Holds(store, Zip(m.chunks, datas))
    ensures Merged(s, m, datas, password) == Ok(data)
    ensures MergedToDisk(s, m, datas, password) == DiskOutcome(None, Some(data))
    ensures PipelineMerged(s, store, m, password) == DiskOutcome(None, Some(data))
    ensures Streamed(s, store, m, password) == Written(Pieces(data, size), None)
    ensures Join(Streamed(s, store, m, password).pieces) == data
  {
    MergeRoundTrip(s, m, datas, name, data, size, password, r);
    ShuffleDecodes(s, m, datas, name, data, size, password, r);
    var salt := if password != [] then r.salt else [];
    forall p | p in Zip(m.chunks, datas)
      ensures p in Ordered(m.chunks, datas)
    {
      SortMember(ByIndex, Zip(m.chunks, datas), p);
    }
    var w := ReadersAgree(s, m, datas, store, password, salt);
    PiecesPartitionFile(data, size);
  }

  /** The store that `pipeline_chunk_and_store` leaves holds every chunk of its manifest, as
      long as no two different chunks collide. */
  lemma {:induction false} StoredChunksAreHeld(s: Suite, store: Store, datas: seq<Bytes>)
    requires InjectiveOn(s.hash, set d | d in datas)
    ensures forall d :: d in datas ==>
              s.hash(d) in Stored(store, Tasks(s, datas)) && Stored(store, Tasks(s, datas))[s.hash(d)] == d
    ensures forall h :: h in store && (forall d :: d in datas ==> s.hash(d) != h) ==>
              h in Stored(store, Tasks(s, datas)) && Stored(store, Tasks(s, datas))[h] == store[h]
    decreases |datas|
  {
    if datas != [] {
      var first, rest := datas[0], datas[1..];
      assert Tasks(s, datas)[1..] == Tasks(s, rest);
      assert forall d :: d in rest ==> d in datas;
      StoredChunksAreHeld(s, store[s.hash(first) := first], rest);
      forall d | d in datas
        ensures s.hash(d) in Stored(store, Tasks(s, datas)) && Stored(store, Tasks(s, datas))[s.hash(d)] == d
      {
        if d !in rest {
          assert d == first && first in datas;
          assert forall e :: e in rest ==> s.hash(e) != s.hash(first);
        }
      }
    }
  }

  /** Written by the pipeline, read by the pipeline: the file comes back. */
  lemma PipelineRoundTrip(s: Suite, name: string, data: Bytes, size: int, password: Bytes, r: Randomness, before: Store)
    requires Lawful(s) && WellDrawn(r) && size != 0
    requires InjectiveOn(s.hash, set d | d in EncodeAll(s, Pieces(data, size), password, r))
    ensures var datas := EncodeAll(s, Pieces(data, size), password, r);
            var m := ManifestOf(s, name, data, size, datas, password != [], "zstd");
            var store := Stored(before, Tasks(s, datas));
            && PipelineMerged(s, store, m, password) == DiskOutcome(None, Some(data))
            && Join(Streamed(s, store, m, password).pieces) == data
  {
    var datas := EncodeAll(s, Pieces(data, size), password, r);
    var m := ManifestOf(s, name, data, size, datas, password != [], "zstd");
    var store := Stored(before, Tasks(s, datas));
    StoredChunksAreHeld(s, before, datas);
    forall p | p in Zip(m.chunks, datas)
      ensures p.0.chunkHash in store && store[p.0.chunkHash] == p.1
    {
      var i :| 0 <= i < |datas| && p == (m.chunks[i], datas[i]);
      assert datas[i] in datas;
    }
    EveryReaderRoundTrips(s, m, datas, name, data, size, password, r, store);
  }

  // ---- chunk_file_streaming draws a fresh salt per chunk ----

  datatype FreshRandomness = FreshRandomness(salt: nat -> Bytes, nonce: nat -> Bytes)

  ghost predicate FreshlyDrawn(r: FreshRandomness) {
    forall i :: |r.salt(i)| == SALT_SIZE && |r.nonce(i)| == NONCE_SIZE
  }

  function FreshChunk(s: Suite, raw: Bytes, password: Bytes, r: FreshRandomness, i: nat): Bytes {
    if password != [] then EncryptWithKey(s, raw, s.derive(password, r.salt(i)), r.salt(i), r.nonce(i)) else raw
  }

  function FreshChunks(s: Suite, pieces: seq<Bytes>, password: Bytes, r: FreshRandomness): seq<Bytes> {
    seq(|pieces|, i requires 0 <= i < |pieces| => FreshChunk(s, pieces[i], password, r, i))
  }

  lemma FreshChunkDecodes(s: Suite, raw: Bytes, password: Bytes, r: FreshRandomness, i: nat, other: Bytes)
    requires Lawful(s) && FreshlyDrawn(r)
    ensures var data := FreshChunk(s, raw, password, r, i);
            var p := (InfoAt(s, i, data, password != []), data);
            && DecodeChunk(s, p, password, None, false) == Ok(raw)
            && (password != [] ==> SaltOf(data) == r.salt(i))
            && (password != [] && other == r.salt(i) ==>
                  DecodeChunk(s, p, password, Some(s.derive(password, other)), false) == Ok(raw))
            && (password != [] &&
                Refuses(s, s.derive(password, other), s.derive(password, r.salt(i)), r.nonce(i), raw) ==>
                  DecodeChunk(s, p, password, Some(s.derive(password, other)), false) == Err(BadEnvelope(AuthFailed)))
  {
    if password != [] {
      var key := s.derive(password, r.salt(i));
      DecryptUndoesEncrypt(s, raw, key, r.salt(i), r.nonce(i));
      ForeignKeyIsRefused(s, raw, key, s.derive(password, other), r.salt(i), r.nonce(i));
    }
  }

  /** On the chunks of this file: a chunk whose salt is not the first chunk's does not open under
      the first chunk's key. */
  ghost predicate SaltsMatter(s: Suite, pieces: seq<Bytes>, password: Bytes, r: FreshRandomness) {
    forall i :: 0 <= i < |pieces| && r.salt(i) != r.salt(0) ==>
      Refuses(s, s.derive(password, r.salt(0)), s.derive(password, r.salt(i)), r.nonce(i), pieces[i])
  }

  lemma SaltsMatterInTheToySuite(pieces: seq<Bytes>, password: Bytes, r: FreshRandomness)
    requires FreshlyDrawn(r)
    ensures SaltsMatter(ToySuite(), pieces, password, r)
  {
    var s := ToySuite();
    forall i | 0 <= i < |pieces| && r.salt(i) != r.salt(0)
      ensures Refuses(s, s.derive(password, r.salt(0)), s.derive(password, r.salt(i)), r.nonce(i), pieces[i])
    {
      var first, key := s.derive(password, r.salt(0)), s.derive(password, r.salt(i));
      assert first[..SALT_SIZE] == r.salt(0) && key[..SALT_SIZE] == r.salt(i);
      assert (key + pieces[i])[..|first|] == key;
    }
  }

  lemma {:induction false} OneRefusalStopsDecoding(s: Suite, ordered: seq<Pair>, j: nat, password: Bytes,
                                                   key: Option<Bytes>, zstd: bool)
    requires j < |ordered| && DecodeChunk(s, ordered[j], password, key, zstd).Err?
    ensures DecodeAll(s, ordered, password, key, zstd).error.Some?
    decreases j
  {
    if j > 0 && DecodeChunk(s, ordered[0], password, key, zstd).Ok? {
      OneRefusalStopsDecoding(s, ordered[1..], j - 1, password, key, zstd);
    }
  }

  function FreshPairs(s: Suite, pieces: seq<Bytes>, password: Bytes, r: FreshRandomness): seq<Pair> {
    var datas := FreshChunks(s, pieces, password, r);
    Zip(Infos(s, datas, password != []), datas)
  }

  lemma FreshPairsDecode(s: Suite, pieces: seq<Bytes>, password: Bytes, r: FreshRandomness)
    requires Lawful(s) && FreshlyDrawn(r)
    ensures var pairs := FreshPairs(s, pieces, password, r);
            && Sort(ByIndex, pairs) == pairs && FirstMismatch(s, pairs) == None
            && DataHashes(s, pairs) == Hashes(s, FreshChunks(s, pieces, password, r))
            && DecodeAll(s, pairs, password, None, false) == Written(pieces, None)
  {
    var pairs := FreshPairs(s, pieces, password, r);
    SortUndoesShuffle(pairs, pairs);
    MatchingHashesPass(s, pairs);
    forall i | 0 <= i < |pairs|
      ensures DecodeChunk(s, pairs[i], password, None, false) == Ok(pieces[i])
    {
      FreshChunkDecodes(s, pieces[i], password, r, i, []);
    }
    PiecewiseDecoding(s, pairs, pieces, password, None, false);
  }

  /** The first chunk's key decodes all chunks exactly when all salts equal the first. */
  lemma FirstKeyDecodesFreshPairs(s: Suite, pieces: seq<Bytes>, password: Bytes, r: FreshRandomness)
    requires Lawful(s) && FreshlyDrawn(r) && SaltsMatter(s, pieces, password, r) && password != [] && pieces != []
    ensures var pairs := FreshPairs(s, pieces, password, r);
            var w := DecodeAll(s, pairs, password, SharedKey(s, pairs, password), false);
            && (w.error.None? <==> forall i :: 0 <= i < |pieces| ==> r.salt(i) == r.salt(0))
            && (w.error.None? ==> w == Written(pieces, None))
  {
    var pairs := FreshPairs(s, pieces, password, r);
    FreshChunkDecodes(s, pieces[0], password, r, 0, []);
    var key := Some(s.derive(password, r.salt(0)));
    assert SharedKey(s, pairs, password) == key;
    forall i | 0 <= i < |pairs|
      ensures DecodeChunk(s, pairs[i], password, key, false) ==
              if r.salt(0) == r.salt(i) then Ok(pieces[i]) else Err(BadEnvelope(AuthFailed))
    {
      FreshChunkDecodes(s, pieces[i], password, r, i, r.salt(0));
    }
    if j :| 0 <= j < |pieces| && r.salt(j) != r.salt(0) {
      OneRefusalStopsDecoding(s, pairs, j, password, key, false);
    } else {
      PiecewiseDecoding(s, pairs, pieces, password, key, false);
    }
  }

  /** With a key at hand, or no password to derive one from, streaming is decoding with it. */
  lemma {:induction false} StreamingKeepsItsKey(s: Suite, store: Store, ordered: seq<Pair>, password: Bytes,
                                                key: Option<Bytes>, zstd: bool)
    requires Holds(store, ordered) && (key.Some? || password == [])
    ensures StreamDecode(s, store, Firsts(ordered), password, key, zstd) == DecodeAll(s, ordered, password, key, zstd)
  {
    if ordered != [] {
      assert ordered[0] in ordered;
      assert Firsts(ordered)[1..] == Firsts(ordered[1..]);
      assert ordered[0] == (Firsts(ordered)[0], store[Firsts(ordered)[0].chunkHash]);
      StreamingKeepsItsKey(s, store, ordered[1..], password, key, zstd);
    }
  }

  lemma StreamingTakesTheFirstKey(s: Suite, store: Store, ordered: seq<Pair>, password: Bytes, zstd: bool)
    requires Holds(store, ordered) && (ordered != [] && password != [] ==> ordered[0].0.encrypted)
    ensures StreamDecode(s, store, Firsts(ordered), password, None, zstd) ==
            DecodeAll(s, ordered, password, SharedKey(s, ordered, password), zstd)
  {
    var key := SharedKey(s, ordered, password);
    if ordered != [] && password != [] {
      assert ordered[0] in ordered;
      assert ordered[0] == (Firsts(ordered)[0], store[Firsts(ordered)[0].chunkHash]);
      assert StreamDecode(s, store, Firsts(ordered), password, None, zstd) ==
             StreamDecode(s, store, Firsts(ordered), password, key, zstd);
    }
    if ordered != [] {
      StreamingKeepsItsKey(s, store, ordered, password, key, zstd);
    }
  }

  /** The readers that keep the first chunk's key read such a file back exactly when there is no
      password or every salt happens to equal the first; the merge that takes each chunk's own
      salt always reads it back. */
  lemma FreshSaltsDefeatTheSharedKey(s: Suite, name: string, data: Bytes, size: int, password: Bytes,
                                     r: FreshRandomness, store: Store)
    requires Lawful(s) && FreshlyDrawn(r) && size != 0 && SaltsMatter(s, Pieces(data, size), password, r)
    requires var datas := FreshChunks(s, Pieces(data, size), password, r);
             Holds(store, Zip(Infos(s, datas, password != []), datas))
    ensures var pieces := Pieces(data, size);
            var datas := FreshChunks(s, pieces, password, r);
            var m := ManifestOf(s, name, data, size, datas, password != [], "");
            var oneKey := password == [] || forall i :: 0 <= i < |pieces| ==> r.salt(i) == r.salt(0);
            && PipelineMerged(s, store, m, password) == DiskOutcome(None, Some(data))
            && (Merged(s, m, datas, password) == Ok(data) <==> oneKey)
            && (MergedToDisk(s, m, datas, password) == DiskOutcome(None, Some(data)) <==> oneKey)
            && (Streamed(s, store, m, password) == Written(pieces, None) <==> oneKey)
  {
    var pieces := Pieces(data, size);
    var datas := FreshChunks(s, pieces, password, r);
    var m := ManifestOf(s, name, data, size, datas, password != [], "");
    var pairs := FreshPairs(s, pieces, password, r);
    PiecesPartitionFile(data, size);
    FreshPairsDecode(s, pieces, password, r);
    assert pairs == Zip(m.chunks, datas) && Firsts(pairs) == m.chunks;
    OwnSaltsReadBack(s, m, pairs, pieces, store, password);
    StreamingTakesTheFirstKey(s, store, pairs, password, false);
    SortCommutesWithFirsts(pairs);
    if password != [] && pieces != [] {
      FirstKeyDecodesFreshPairs(s, pieces, password, r);
    }
  }

  lemma OwnSaltsReadBack(s: Suite, m: FileManifest, pairs: seq<Pair>, pieces: seq<Bytes>, store: Store, password: Bytes)
    requires m.chunks == Firsts(pairs) && m.compression != "zstd" && m.fileHash == s.hash(Join(pieces))
    requires Sort(ByIndex, pairs) == pairs && Holds(store, pairs)
    requires DecodeAll(s, pairs, password, None, false) == Written(pieces, None)
    ensures PipelineMerged(s, store, m, password) == DiskOutcome(None, Some(Join(pieces)))
  {
    SortCommutesWithFirsts(pairs);
    LoadingIsDecoding(s, store, pairs, password, false);
  }
}
