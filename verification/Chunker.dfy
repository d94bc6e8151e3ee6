/** Splitting a file into compressed, optionally encrypted chunks, and merging them back. An
    empty password stands for no password. */
module Chunker {
  import opened Primitives
  import opened Sorting
  import opened Crypto
  import Merkle

  datatype ChunkInfo = ChunkInfo(index: int, chunkHash: Bytes, size: nat, encrypted: bool)

  datatype FileManifest = FileManifest(
    originalFilename: string,
    originalSize: int,
    fileHash: Bytes,
    chunkSize: int,
    merkleRoot: Bytes,
    compression: string,
    chunks: seq<ChunkInfo>)

  datatype MergeError =
    | ChunkHashMismatch(index: int)
    | MerkleMismatch
    | NegativeBufferSize
    | ChunkMissing(chunkHash: Bytes)
    | BadEnvelope(reason: CryptoError)
    | BadFrame
    | IntegrityFailed

  type Pair = (ChunkInfo, Bytes)

  // ---- Reading a file in pieces ----

  /** How many of the remaining bytes one `read(size)` returns; a negative size reads all. */
  function ReadLength(remaining: nat, size: int): nat {
    if size < 0 || size > remaining then remaining else size
  }

  function Pieces(data: Bytes, size: int): seq<Bytes>
    decreases |data|
  {
    if data == [] || size == 0 then []
    else
      var n := ReadLength(|data|, size);
      [data[..n]] + Pieces(data[n..], size)
  }

  function Join(pieces: seq<Bytes>): Bytes {
    if pieces == [] then [] else pieces[0] + Join(pieces[1..])
  }

  lemma {:induction false} JoinAppends(a: seq<Bytes>, b: seq<Bytes>)
    ensures Join(a + b) == Join(a) + Join(b)
  {
    if a == [] {
      assert a + b == b;
    } else {
      assert (a + b)[1..] == a[1..] + b;
      JoinAppends(a[1..], b);
    }
  }

  /** Every byte is read once and in order, in non-empty pieces of at most the chunk size. */
  lemma {:induction false} PiecesPartitionFile(data: Bytes, size: int)
    ensures Join(Pieces(data, size)) == if size == 0 then [] else data
    ensures forall i :: 0 <= i < |Pieces(data, size)| ==>
              Pieces(data, size)[i] != [] && (size > 0 ==> |Pieces(data, size)[i]| <= size)
    ensures forall i :: 0 <= i < |Pieces(data, size)| - 1 && size > 0 ==> |Pieces(data, size)[i]| == size
    ensures size < 0 && data != [] ==> Pieces(data, size) == [data]
    decreases |data|
  {
    if data != [] && size != 0 {
      var n := ReadLength(|data|, size);
      PiecesPartitionFile(data[n..], size);
      assert data == data[..n] + data[n..];
      var p := Pieces(data, size);
      assert p[1..] == Pieces(data[n..], size);
      if size < 0 {
        assert data[n..] == [] && data[..n] == data;
      }
    }
  }

  method StreamChunks(data: Bytes, size: int) returns (pieces: seq<Bytes>)
    ensures pieces == Pieces(data, size)
  {
    pieces := [];
    var position := 0;
    while true
      invariant 0 <= position <= |data|
      invariant pieces + Pieces(data[position..], size) == Pieces(data, size)
      decreases |data| - position
    {
      var chunk := data[position..position + ReadLength(|data| - position, size)];
      if chunk == [] {
        break;
      }
      assert chunk == data[position..][..|chunk|];
      assert data[position..][|chunk|..] == data[position + |chunk|..];
      assert pieces + ([chunk] + Pieces(data[position + |chunk|..], size)) ==
             (pieces + [chunk]) + Pieces(data[position + |chunk|..], size);
      pieces := pieces + [chunk];
      position := position + |chunk|;
    }
  }

  const HASH_BLOCK := 65536

  /** A running digest equals the digest of everything it was fed. */
  method StreamingFileHash(s: Suite, data: Bytes) returns (digest: Bytes)
    ensures digest == s.hash(data)
  {
    var fed := [];
    var position := 0;
    while position < |data|
      invariant 0 <= position <= |data| && fed == data[..position]
    {
      var n := ReadLength(|data| - position, HASH_BLOCK);
      fed := fed + data[position..position + n];
      position := position + n;
    }
    assert data[..position] == data;
    return s.hash(fed);
  }

  const CHUNK_256KB := 262144
  const CHUNK_1MB := 1048576
  const CHUNK_4MB := 4194304
  const TIER_50MB := 50 * 1024 * 1024
  const TIER_500MB := 500 * 1024 * 1024

  function OptimalChunkSize(fileSize: nat): int {
    if fileSize < TIER_50MB then CHUNK_256KB
    else if fileSize < TIER_500MB then CHUNK_1MB
    else CHUNK_4MB
  }

  /** The tiers in bytes: below 50 MB, below 500 MB, and above. */
  lemma SizeTiers(fileSize: nat)
    ensures OptimalChunkSize(fileSize) == 262144 <==> fileSize < 52428800
    ensures OptimalChunkSize(fileSize) == 1048576 <==> 52428800 <= fileSize < 524288000
    ensures OptimalChunkSize(fileSize) == 4194304 <==> fileSize >= 524288000
  {
  }

  // ---- Writing: chunk_file ----

  /** The random bytes one call draws: a salt for its key and a nonce per chunk. */
  datatype Randomness = Randomness(salt: Bytes, nonce: nat -> Bytes)

  ghost predicate WellDrawn(r: Randomness) {
    |r.salt| == SALT_SIZE && forall i :: |r.nonce(i)| == NONCE_SIZE
  }

  /** Compress, then encrypt under the key of the whole file. */
  function EncodeChunk(s: Suite, raw: Bytes, password: Bytes, r: Randomness, i: nat): Bytes {
    if password != [] then EncryptWithKey(s, s.compress(raw), s.derive(password, r.salt), r.salt, r.nonce(i))
    else s.compress(raw)
  }

  function EncodeAll(s: Suite, pieces: seq<Bytes>, password: Bytes, r: Randomness): seq<Bytes> {
    seq(|pieces|, i requires 0 <= i < |pieces| => EncodeChunk(s, pieces[i], password, r, i))
  }

  function InfoAt(s: Suite, i: nat, data: Bytes, encrypted: bool): ChunkInfo {
    ChunkInfo(i, s.hash(data), |data|, encrypted)
  }

  function Infos(s: Suite, datas: seq<Bytes>, encrypted: bool): seq<ChunkInfo> {
    seq(|datas|, i requires 0 <= i < |datas| => InfoAt(s, i, datas[i], encrypted))
  }

  function Hashes(s: Suite, datas: seq<Bytes>): seq<Bytes> {
    seq(|datas|, i requires 0 <= i < |datas| => s.hash(datas[i]))
  }

  ghost function ManifestOf(s: Suite, name: string, data: Bytes, size: int, datas: seq<Bytes>, encrypted: bool,
                            compression: string): FileManifest
  {
    FileManifest(name, |data|, s.hash(data), size, Merkle.Root(s.hash, Hashes(s, datas)), compression,
                 Infos(s, datas, encrypted))
  }

  method ChunkFile(s: Suite, name: string, data: Bytes, size: int, password: Bytes, r: Randomness)
    returns (manifest: FileManifest, chunkDataList: seq<Bytes>)
    ensures chunkDataList == EncodeAll(s, Pieces(data, size), password, r)
    ensures manifest == ManifestOf(s, name, data, size, chunkDataList, password != [], "zstd")
  {
    var fileHash := StreamingFileHash(s, data);
    manifest := FileManifest(name, |data|, fileHash, size, [], "", []);
    chunkDataList := [];
    var chunkHashes := [];
    var key := if password != [] then s.derive(password, r.salt) else [];
    var pieces := StreamChunks(data, size);
    ghost var encoded := EncodeAll(s, pieces, password, r);
    for idx := 0 to |pieces|
      invariant chunkDataList == encoded[..idx]
      invariant chunkHashes == Hashes(s, chunkDataList)
      invariant manifest == FileManifest(name, |data|, fileHash, size, [], "",
                                         Infos(s, chunkDataList, password != []))
    {
      var compressed := s.compress(pieces[idx]);
      var chunkBytes := compressed;
      var encrypted := false;
      if password != [] {
        chunkBytes := EncryptWithKey(s, compressed, key, r.salt, r.nonce(idx));
        encrypted := true;
      }
      var chunkHash := s.hash(chunkBytes);
      chunkHashes := chunkHashes + [chunkHash];
      manifest := manifest.(chunks := manifest.chunks + [ChunkInfo(idx, chunkHash, |chunkBytes|, encrypted)]);
      chunkDataList := chunkDataList + [chunkBytes];
    }
    var root := Merkle.ComputeMerkleRoot(s.hash, chunkHashes);
    manifest := manifest.(merkleRoot := root);
    manifest := manifest.(compression := "zstd");
  }

  // ---- Reading: merge_chunks ----

  function Zip(chunks: seq<ChunkInfo>, datas: seq<Bytes>): seq<Pair> {
    seq(if |chunks| <= |datas| then |chunks| else |datas|,
        i requires 0 <= i < |chunks| && i < |datas| => (chunks[i], datas[i]))
  }

  const ByIndex: (Pair, Pair) -> bool := (a: Pair, b: Pair) => a.0.index <= b.0.index

  const InfoByIndex: (ChunkInfo, ChunkInfo) -> bool := (a: ChunkInfo, b: ChunkInfo) => a.index <= b.index

  function Ordered(chunks: seq<ChunkInfo>, datas: seq<Bytes>): seq<Pair> {
    Sort(ByIndex, Zip(chunks, datas))
  }

  /** Decrypts and decompresses one chunk; without a shared key the chunk's own salt decides. */
  function DecodeChunk(s: Suite, p: Pair, password: Bytes, key: Option<Bytes>, zstd: bool): Result<Bytes, MergeError> {
    var decrypted :=
      if p.0.encrypted && password != [] then
        match key
        case Some(k) => DecryptWithKey(s, p.1, k)
        case None => Decrypt(s, p.1, password)
      else Ok(p.1);
    match decrypted
    case Err(e) => Err(BadEnvelope(e))
    case Ok(d) => if zstd then Inflate(s, d) else Ok(d)
  }

  function Inflate(s: Suite, d: Bytes): Result<Bytes, MergeError> {
    match s.decompress(d)
    case Some(x) => Ok(x)
    case None => Err(BadFrame)
  }

  /** What a reader put out before it ended, and the exception that ended it, if any. */
  datatype Written = Written(pieces: seq<Bytes>, error: Option<MergeError>)

  function DecodeAll(s: Suite, ordered: seq<Pair>, password: Bytes, key: Option<Bytes>, zstd: bool): Written
    decreases |ordered|
  {
    if ordered == [] then Written([], None)
    else
      match DecodeChunk(s, ordered[0], password, key, zstd)
      case Err(e) => Written([], Some(e))
      case Ok(d) =>
        var rest := DecodeAll(s, ordered[1..], password, key, zstd);
        Written([d] + rest.pieces, rest.error)
  }

  function FirstMismatch(s: Suite, ordered: seq<Pair>): Option<int>
    decreases |ordered|
  {
    if ordered == [] then None
    else if s.hash(ordered[0].1) != ordered[0].0.chunkHash then Some(ordered[0].0.index)
    else FirstMismatch(s, ordered[1..])
  }

  /** The key derived once, from the first chunk's salt. */
  function SharedKey(s: Suite, ordered: seq<Pair>, password: Bytes): Option<Bytes> {
    if password != [] && ordered != [] && ordered[0].0.encrypted
    then Some(s.derive(password, SaltOf(ordered[0].1)))
    else None
  }

  function Checked(s: Suite, fileHash: Bytes, w: Written): Result<Bytes, MergeError> {
    if w.error.Some? then Err(w.error.value)
    else if s.hash(Join(w.pieces)) != fileHash then Err(IntegrityFailed)
    else Ok(Join(w.pieces))
  }

  function DataHashes(s: Suite, ordered: seq<Pair>): seq<Bytes> {
    seq(|ordered|, i requires 0 <= i < |ordered| => s.hash(ordered[i].1))
  }

  ghost function Merged(s: Suite, m: FileManifest, datas: seq<Bytes>, password: Bytes): Result<Bytes, MergeError> {
    var ordered := Ordered(m.chunks, datas);
    if FirstMismatch(s, ordered).Some? then Err(ChunkHashMismatch(FirstMismatch(s, ordered).value))
    else if m.merkleRoot != [] && Merkle.Root(s.hash, DataHashes(s, ordered)) != m.merkleRoot then Err(MerkleMismatch)
    else if m.originalSize < 0 then Err(NegativeBufferSize)
    else Checked(s, m.fileHash, DecodeAll(s, ordered, password, SharedKey(s, ordered, password),
                                          m.compression == "zstd"))
  }

  /** `buffer[lo:hi] = data`: the slice is clipped, then replaced, so the buffer may grow. */
  function SliceAssign(buffer: Bytes, lo: nat, hi: nat, data: Bytes): Bytes
    requires lo <= hi
  {
    var from := if lo <= |buffer| then lo else |buffer|;
    var to := if hi <= |buffer| then hi else |buffer|;
    buffer[..from] + data + buffer[to..]
  }

  /** Writing at the end of the prefix extends the prefix, whatever the buffer's size. */
  lemma SliceAssignExtendsPrefix(buffer: Bytes, offset: nat, data: Bytes)
    requires offset <= |buffer|
    ensures offset + |data| <= |SliceAssign(buffer, offset, offset + |data|, data)|
    ensures SliceAssign(buffer, offset, offset + |data|, data)[..offset + |data|] == buffer[..offset] + data
  {
  }

  /** Compares every chunk with its hash, up to the first that differs. */
  method VerifyChunkHashes(s: Suite, ordered: seq<Pair>) returns (mismatch: Option<int>, hashes: seq<Bytes>)
    ensures mismatch == FirstMismatch(s, ordered)
    ensures mismatch == None ==> hashes == DataHashes(s, ordered)
  {
    hashes := [];
    for i := 0 to |ordered|
      invariant hashes == DataHashes(s, ordered)[..i]
      invariant FirstMismatch(s, ordered) == FirstMismatch(s, ordered[i..])
    {
      var (info, data) := ordered[i];
      assert ordered[i..][1..] == ordered[i + 1..];
      var actualHash := s.hash(data);
      if actualHash != info.chunkHash {
        return Some(info.index), hashes;
      }
      hashes := hashes + [actualHash];
    }
    mismatch := None;
  }

  method MergeChunks(s: Suite, m: FileManifest, chunkDataList: seq<Bytes>, password: Bytes)
    returns (r: Result<Bytes, MergeError>)
    ensures r == Merged(s, m, chunkDataList, password)
  {
    var ordered := Sort(ByIndex, Zip(m.chunks, chunkDataList));
    var mismatch, receivedHashes := VerifyChunkHashes(s, ordered);
    if mismatch.Some? {
      return Err(ChunkHashMismatch(mismatch.value));
    }
    if m.merkleRoot != [] {
      var receivedRoot := Merkle.ComputeMerkleRoot(s.hash, receivedHashes);
      if receivedRoot != m.merkleRoot {
        return Err(MerkleMismatch);
      }
    }
    var decKey := None;
    if password != [] && ordered != [] && ordered[0].0.encrypted {
      decKey := Some(s.derive(password, SaltOf(ordered[0].1)));
    }
    var useZstd := m.compression == "zstd";
    if m.originalSize < 0 {
      return Err(NegativeBufferSize);
    }
    var buffer := Fill(m.originalSize, 0);
    var offset: nat := 0;
    ghost var all := DecodeAll(s, ordered, password, decKey, useZstd);
    ghost var done := [];
    for i := 0 to |ordered|
      invariant offset <= |buffer| && buffer[..offset] == Join(done)
      invariant Owes(all, done, DecodeAll(s, ordered[i..], password, decKey, useZstd))
    {
      NextPiece(s, ordered, i, password, decKey, useZstd, all, done);
      var data;
      match DecodeChunk(s, ordered[i], password, decKey, useZstd) {
        case Err(e) => return Err(e);
        case Ok(d) => data := d;
      }
      SliceAssignExtendsPrefix(buffer, offset, data);
      buffer := SliceAssign(buffer, offset, offset + |data|, data);
      offset := offset + |data|;
      done := done + [data];
    }
    NothingIsOwed(all, done, None);
    var result := buffer[..offset];
    if s.hash(result) != m.fileHash {
      return Err(IntegrityFailed);
    }
    return Ok(result);
  }

  /** A reader that has put out `done` and still owes `rest`. */
  ghost predicate Owes(all: Written, done: seq<Bytes>, rest: Written) {
    all == Written(done + rest.pieces, rest.error)
  }

  lemma PieceIsPaid(all: Written, done: seq<Bytes>, d: Bytes, rest: Written)
    requires Owes(all, done, Written([d] + rest.pieces, rest.error))
    ensures Owes(all, done + [d], rest) && Join(done + [d]) == Join(done) + d
  {
    assert done + ([d] + rest.pieces) == (done + [d]) + rest.pieces;
    JoinAppends(done, [d]);
    assert Join([d]) == d + Join([]);
  }

  lemma NothingIsOwed(all: Written, done: seq<Bytes>, error: Option<MergeError>)
    requires Owes(all, done, Written([], error))
    ensures all == Written(done, error)
  {
    assert done + [] == done;
  }

  lemma DecodeAllAt(s: Suite, ordered: seq<Pair>, i: nat, password: Bytes, key: Option<Bytes>, zstd: bool)
    requires i < |ordered|
    ensures DecodeAll(s, ordered[i..], password, key, zstd) ==
            match DecodeChunk(s, ordered[i], password, key, zstd)
            case Err(e) => Written([], Some(e))
            case Ok(d) => (var rest := DecodeAll(s, ordered[i + 1..], password, key, zstd);
                           Written([d] + rest.pieces, rest.error))
  {
    assert ordered[i..][1..] == ordered[i + 1..];
  }

  /** The next chunk either ends the reader or pays one piece. */
  lemma NextPiece(s: Suite, ordered: seq<Pair>, i: nat, password: Bytes, key: Option<Bytes>, zstd: bool,
                  all: Written, done: seq<Bytes>)
    requires i < |ordered| && Owes(all, done, DecodeAll(s, ordered[i..], password, key, zstd))
    ensures var r := DecodeChunk(s, ordered[i], password, key, zstd);
            && (r.Err? ==> all == Written(done, Some(r.error)))
            && (r.Ok? ==> Owes(all, done + [r.value], DecodeAll(s, ordered[i + 1..], password, key, zstd)))
            && (r.Ok? ==> Join(done + [r.value]) == Join(done) + r.value)
  {
    DecodeAllAt(s, ordered, i, password, key, zstd);
    match DecodeChunk(s, ordered[i], password, key, zstd)
    case Err(e) => NothingIsOwed(all, done, Some(e));
    case Ok(d) => PieceIsPaid(all, done, d, DecodeAll(s, ordered[i + 1..], password, key, zstd));
  }

  // ---- Reading: merge_chunks_to_disk ----

  /** How a reader that writes a file ends: the exception, and what is left on disk. An
      exception while decoding leaves the part written so far; a wrong digest unlinks it. */
  datatype DiskOutcome = DiskOutcome(error: Option<MergeError>, file: Option<Bytes>)

  function OnDisk(s: Suite, fileHash: Bytes, w: Written): DiskOutcome {
    if w.error.Some? then DiskOutcome(w.error, Some(Join(w.pieces)))
    else if s.hash(Join(w.pieces)) != fileHash then DiskOutcome(Some(IntegrityFailed), None)
    else DiskOutcome(None, Some(Join(w.pieces)))
  }

  function MergedToDisk(s: Suite, m: FileManifest, datas: seq<Bytes>, password: Bytes): DiskOutcome {
    var ordered := Ordered(m.chunks, datas);
    OnDisk(s, m.fileHash, DecodeAll(s, ordered, password, SharedKey(s, ordered, password), m.compression == "zstd"))
  }

  method MergeChunksToDisk(s: Suite, m: FileManifest, chunkDataList: seq<Bytes>, password: Bytes)
    returns (r: DiskOutcome)
    ensures r == MergedToDisk(s, m, chunkDataList, password)
  {
    var ordered := Sort(ByIndex, Zip(m.chunks, chunkDataList));
    var decKey := None;
    if password != [] && ordered != [] && ordered[0].0.encrypted {
      decKey := Some(s.derive(password, SaltOf(ordered[0].1)));
    }
    var useZstd := m.compression == "zstd";
    var file, hashed := [], [];
    ghost var all := DecodeAll(s, ordered, password, decKey, useZstd);
    ghost var done := [];
    for i := 0 to |ordered|
      invariant file == hashed == Join(done)
      invariant Owes(all, done, DecodeAll(s, ordered[i..], password, decKey, useZstd))
    {
      NextPiece(s, ordered, i, password, decKey, useZstd, all, done);
      var data;
      match DecodeChunk(s, ordered[i], password, decKey, useZstd) {
        case Err(e) => return DiskOutcome(Some(e), Some(file));
        case Ok(d) => data := d;
      }
      file := file + data;
      hashed := hashed + data;
      done := done + [data];
    }
    NothingIsOwed(all, done, None);
    if s.hash(hashed) != m.fileHash {
      return DiskOutcome(Some(IntegrityFailed), None);
    }
    return DiskOutcome(None, Some(file));
  }
}
