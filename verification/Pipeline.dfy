/** The streaming writer and the two readers that load chunks from a store. */
module Pipeline {
  import opened Primitives
  import opened Sorting
  import opened Crypto
  import opened Chunker
  import Merkle

  type Store = map<Bytes, Bytes>

  // ---- Writing: pipeline_chunk_and_store ----

  datatype StoreTask = StoreTask(chunkHash: Bytes, data: Bytes)

  function Stored(store: Store, tasks: seq<StoreTask>): Store
    decreases |tasks|
  {
    if tasks == [] then store
    else Stored(store[tasks[0].chunkHash := tasks[0].data], tasks[1..])
  }

  function Tasks(s: Suite, datas: seq<Bytes>): seq<StoreTask> {
    seq(|datas|, i requires 0 <= i < |datas| => StoreTask(s.hash(datas[i]), datas[i]))
  }

  lemma {:induction false} StoredAppends(store: Store, a: seq<StoreTask>, b: seq<StoreTask>)
    ensures Stored(store, a + b) == Stored(Stored(store, a), b)
    decreases |a|
  {
    if a == [] {
      assert a + b == b;
    } else {
      assert (a + b)[1..] == a[1..] + b;
      StoredAppends(store[a[0].chunkHash := a[0].data], a[1..], b);
    }
  }

  /** The background tasks that write chunks. A started task may finish at any await of the
      writer, and has finished once the writer awaited it. */
  class StoreRunner {
    var store: Store
    var inFlight: seq<StoreTask>
    var peak: nat

    constructor (initial: Store)
      ensures store == initial && inFlight == [] && peak == 0
    {
      store, inFlight, peak := initial, [], 0;
    }

    method Start(task: StoreTask)
      modifies this
      ensures inFlight == old(inFlight) + [task] && store == old(store)
      ensures peak == if |inFlight| > old(peak) then |inFlight| else old(peak)
    {
      inFlight := inFlight + [task];
      if |inFlight| > peak {
        peak := |inFlight|;
      }
    }

    /** Some of the oldest tasks finish; which, the scheduler decides. */
    method Progress(finished: nat)
      modifies this
      ensures peak == old(peak)
      ensures exists n :: 0 <= n <= |old(inFlight)| && inFlight == old(inFlight)[n..]
                          && store == Stored(old(store), old(inFlight)[..n])
    {
      var n := if finished <= |inFlight| then finished else |inFlight|;
      store := Stored(store, inFlight[..n]);
      inFlight := inFlight[n..];
    }

    /** The writer awaits everything it started. */
    method Drain()
      modifies this
      ensures inFlight == [] && peak == old(peak) && store == Stored(old(store), old(inFlight))
    {
      store := Stored(store, inFlight);
      inFlight := [];
    }
  }

  /** With at most one task in flight, progress changes only whether it already landed. */
  lemma LandedEarlyOrLate(store: Store, inFlight: seq<StoreTask>, n: nat)
    requires n <= |inFlight|
    ensures Stored(Stored(store, inFlight[..n]), inFlight[n..]) == Stored(store, inFlight)
  {
    StoredAppends(store, inFlight[..n], inFlight[n..]);
    assert inFlight[..n] + inFlight[n..] == inFlight;
  }

  lemma ChunkListsGrow(s: Suite, datas: seq<Bytes>, idx: nat, encrypted: bool)
    requires idx < |datas|
    ensures Tasks(s, datas[..idx + 1]) == Tasks(s, datas[..idx]) + [StoreTask(s.hash(datas[idx]), datas[idx])]
    ensures Hashes(s, datas[..idx + 1]) == Hashes(s, datas[..idx]) + [s.hash(datas[idx])]
    ensures Infos(s, datas[..idx + 1], encrypted) ==
            Infos(s, datas[..idx], encrypted) + [InfoAt(s, idx, datas[idx], encrypted)]
  {
  }

  /** `schedule` says how far the background tasks get at each await. */
  method PipelineChunkAndStore(s: Suite, name: string, data: Bytes, requested: Option<int>, password: Bytes,
                               r: Randomness, runner: StoreRunner, schedule: nat -> nat)
    returns (manifest: FileManifest)
    requires runner.inFlight == [] && runner.peak <= 1
    modifies runner
    ensures var size := if requested.Some? then requested.value else OptimalChunkSize(|data|);
            var datas := EncodeAll(s, Pieces(data, size), password, r);
            && manifest == ManifestOf(s, name, data, size, datas, password != [], "zstd")
            && runner.store == Stored(old(runner.store), Tasks(s, datas))
    ensures runner.inFlight == [] && runner.peak <= 1
  {
    var size := if requested.Some? then requested.value else OptimalChunkSize(|data|);
    var fileHash := StreamingFileHash(s, data);
    manifest := FileManifest(name, |data|, fileHash, size, [], "", []);
    var chunkHashes := [];
    var pending := false;
    var key := if password != [] then s.derive(password, r.salt) else [];
    var pieces := StreamChunks(data, size);
    ghost var encoded := EncodeAll(s, pieces, password, r);
    ghost var before := runner.store;
    for idx := 0 to |pieces|
      invariant |runner.inFlight| <= 1 && runner.peak <= 1
      invariant !pending ==> runner.inFlight == []
      invariant Stored(runner.store, runner.inFlight) == Stored(before, Tasks(s, encoded[..idx]))
      invariant chunkHashes == Hashes(s, encoded[..idx])
      invariant manifest == FileManifest(name, |data|, fileHash, size, [], "", Infos(s, encoded[..idx], password != []))
    {
      label encrypting:
      runner.Progress(schedule(idx));
      ProgressKeepsContents@encrypting(runner);
      var ct, ch;
      if password != [] {
        ct := EncryptWithKey(s, s.compress(pieces[idx]), key, r.salt, r.nonce(idx));
        ch := s.hash(ct);
      } else {
        ct := s.compress(pieces[idx]);
        ch := s.hash(ct);
      }
      assert ct == encoded[idx];
      ChunkListsGrow(s, encoded, idx, password != []);
      StoredAppends(before, Tasks(s, encoded[..idx]), [StoreTask(ch, ct)]);
      chunkHashes := chunkHashes + [ch];
      manifest := manifest.(chunks := manifest.chunks + [ChunkInfo(idx, ch, |ct|, password != [])]);
      if pending {
        runner.Drain();
      }
      runner.Start(StoreTask(ch, ct));
      pending := true;
    }
    if pending {
      runner.Drain();
    }
    assert encoded[..|pieces|] == encoded;
    var root := Merkle.ComputeMerkleRoot(s.hash, chunkHashes);
    manifest := manifest.(merkleRoot := root);
    manifest := manifest.(compression := "zstd");
  }

  twostate lemma ProgressKeepsContents(runner: StoreRunner)
    requires exists n :: 0 <= n <= |old(runner.inFlight)| && runner.inFlight == old(runner.inFlight)[n..]
                         && runner.store == Stored(old(runner.store), old(runner.inFlight)[..n])
    ensures Stored(runner.store, runner.inFlight) == Stored(old(runner.store), old(runner.inFlight))
    ensures |runner.inFlight| <= |old(runner.inFlight)|
  {
    var n :| 0 <= n <= |old(runner.inFlight)| && runner.inFlight == old(runner.inFlight)[n..]
             && runner.store == Stored(old(runner.store), old(runner.inFlight)[..n]);
    LandedEarlyOrLate(old(runner.store), old(runner.inFlight), n);
  }

  // ---- Reading: pipeline_merge_to_disk ----

  /** Load and decode one chunk after the other, each under the key of its own salt. */
  function LoadDecode(s: Suite, store: Store, ordered: seq<ChunkInfo>, password: Bytes, zstd: bool): Written
    decreases |ordered|
  {
    if ordered == [] then Written([], None)
    else if ordered[0].chunkHash !in store then Written([], Some(ChunkMissing(ordered[0].chunkHash)))
    else
      match DecodeChunk(s, (ordered[0], store[ordered[0].chunkHash]), password, None, zstd)
      case Err(e) => Written([], Some(e))
      case Ok(d) =>
        var rest := LoadDecode(s, store, ordered[1..], password, zstd);
        Written([d] + rest.pieces, rest.error)
  }

  function PipelineMerged(s: Suite, store: Store, m: FileManifest, password: Bytes): DiskOutcome {
    OnDisk(s, m.fileHash, LoadDecode(s, store, Sort(InfoByIndex, m.chunks), password, m.compression == "zstd"))
  }

  function Load(store: Store, chunkHash: Bytes): Result<Bytes, MergeError> {
    if chunkHash in store then Ok(store[chunkHash]) else Err(ChunkMissing(chunkHash))
  }

  /** The keyed worker run on a key taken from the chunk at hand. */
  function DecodeOwnSalt(s: Suite, info: ChunkInfo, data: Bytes, password: Bytes, zstd: bool)
    : Result<Bytes, MergeError>
  {
    if info.encrypted && password != [] then
      match DecryptWithKey(s, data, s.derive(password, SaltOf(data)))
      case Err(e) => Err(BadEnvelope(e))
      case Ok(d) => if zstd then Inflate(s, d) else Ok(d)
    else if zstd then Inflate(s, data)
    else Ok(data)
  }

  lemma LoadDecodeAt(s: Suite, store: Store, ordered: seq<ChunkInfo>, i: nat, password: Bytes, zstd: bool)
    requires i < |ordered|
    ensures var here := LoadDecode(s, store, ordered[i..], password, zstd);
            var rest := LoadDecode(s, store, ordered[i + 1..], password, zstd);
            var loaded := Load(store, ordered[i].chunkHash);
            && (loaded.Err? ==> here == Written([], Some(loaded.error)))
            && (loaded.Ok? ==>
                  var decoded := DecodeOwnSalt(s, ordered[i], loaded.value, password, zstd);
                  here == if decoded.Err? then Written([], Some(decoded.error))
                          else Written([decoded.value] + rest.pieces, rest.error))
  {
    assert ordered[i..][1..] == ordered[i + 1..];
  }

  /** The next chunk is loaded while the current one is decoded; a failed prefetch surfaces
      only after the current chunk has been written. */
  method PipelineMergeToDisk(s: Suite, store: Store, m: FileManifest, password: Bytes) returns (r: DiskOutcome)
    ensures r == PipelineMerged(s, store, m, password)
  {
    var ordered := Sort(InfoByIndex, m.chunks);
    var zstd := m.compression == "zstd";
    var file, hashed := [], [];
    var nextData: Option<Bytes> := None;
    ghost var all := LoadDecode(s, store, ordered, password, zstd);
    ghost var done := [];
    for i := 0 to |ordered|
      invariant file == hashed == Join(done)
      invariant Owes(all, done, LoadDecode(s, store, ordered[i..], password, zstd))
      invariant nextData.Some? ==> i < |ordered| && Load(store, ordered[i].chunkHash) == Ok(nextData.value)
    {
      LoadDecodeAt(s, store, ordered, i, password, zstd);
      var info := ordered[i];
      var data;
      if nextData.Some? {
        data := nextData.value;
      } else {
        match Load(store, info.chunkHash) {
          case Err(e) =>
            NothingIsOwed(all, done, Some(e));
            return DiskOutcome(Some(e), Some(file));
          case Ok(d) => data := d;
        }
      }
      var prefetch := None;
      if i + 1 < |ordered| {
        prefetch := Some(Load(store, ordered[i + 1].chunkHash));
      }
      var plaintext;
      match DecodeOwnSalt(s, info, data, password, zstd) {
        case Err(e) =>
          NothingIsOwed(all, done, Some(e));
          return DiskOutcome(Some(e), Some(file));
        case Ok(d) => plaintext := d;
      }
      PieceIsPaid(all, done, plaintext, LoadDecode(s, store, ordered[i + 1..], password, zstd));
      file := file + plaintext;
      hashed := hashed + plaintext;
      done := done + [plaintext];
      if prefetch.Some? {
        match prefetch.value {
          case Err(e) =>
            LoadDecodeAt(s, store, ordered, i + 1, password, zstd);
            NothingIsOwed(all, done, Some(e));
            return DiskOutcome(Some(e), Some(file));
          case Ok(d) => nextData := Some(d);
        }
      } else {
        nextData := None;
      }
    }
    NothingIsOwed(all, done, None);
    if s.hash(hashed) != m.fileHash {
      return DiskOutcome(Some(IntegrityFailed), None);
    }
    return DiskOutcome(None, Some(file));
  }

  // ---- Reading: pipeline_stream_file ----

  /** The key is taken from the first encrypted chunk and kept. */
  function StreamDecode(s: Suite, store: Store, ordered: seq<ChunkInfo>, password: Bytes, key: Option<Bytes>,
                        zstd: bool): Written
    decreases |ordered|
  {
    if ordered == [] then Written([], None)
    else if ordered[0].chunkHash !in store then Written([], Some(ChunkMissing(ordered[0].chunkHash)))
    else
      var data := store[ordered[0].chunkHash];
      var key' := LazyKey(s, ordered[0], data, password, key);
      match DecodeChunk(s, (ordered[0], data), password, key', zstd)
      case Err(e) => Written([], Some(e))
      case Ok(d) =>
        var rest := StreamDecode(s, store, ordered[1..], password, key', zstd);
        Written([d] + rest.pieces, rest.error)
  }

  function LazyKey(s: Suite, info: ChunkInfo, data: Bytes, password: Bytes, key: Option<Bytes>): Option<Bytes> {
    if info.encrypted && password != [] && key == None then Some(s.derive(password, SaltOf(data))) else key
  }

  function Streamed(s: Suite, store: Store, m: FileManifest, password: Bytes): Written {
    StreamDecode(s, store, Sort(InfoByIndex, m.chunks), password, None, m.compression == "zstd")
  }

  method PipelineStreamFile(s: Suite, store: Store, m: FileManifest, password: Bytes) returns (w: Written)
    ensures w == Streamed(s, store, m, password)
  {
    var ordered := Sort(InfoByIndex, m.chunks);
    var zstd := m.compression == "zstd";
    var decKey: Option<Bytes> := None;
    var yielded := [];
    ghost var all := Streamed(s, store, m, password);
    for i := 0 to |ordered|
      invariant Owes(all, yielded, StreamDecode(s, store, ordered[i..], password, decKey, zstd))
    {
      assert ordered[i..][1..] == ordered[i + 1..];
      var info := ordered[i];
      if info.chunkHash !in store {
        NothingIsOwed(all, yielded, Some(ChunkMissing(info.chunkHash)));
        return Written(yielded, Some(ChunkMissing(info.chunkHash)));
      }
      var data := store[info.chunkHash];
      if info.encrypted && password != [] && decKey == None {
        decKey := Some(s.derive(password, SaltOf(data)));
      }
      var plaintext;
      match DecodeChunk(s, (info, data), password, decKey, zstd) {
        case Err(e) =>
          NothingIsOwed(all, yielded, Some(e));
          return Written(yielded, Some(e));
        case Ok(d) => plaintext := d;
      }
      PieceIsPaid(all, yielded, plaintext, StreamDecode(s, store, ordered[i + 1..], password, decKey, zstd));
      yielded := yielded + [plaintext];
    }
    NothingIsOwed(all, yielded, None);
    return Written(yielded, None);
  }
}
