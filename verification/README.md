# DistriStore backend: a verified model

DistriStore is a peer-to-peer chunk store. This project models the parts of its backend that
carry state or arithmetic, and proves what they promise.

| file | subject |
|---|---|
| `Primitives.dfy` | bytes, results, and the library primitives (SHA-256, PBKDF2, AES-GCM, zstd) as function values with named laws |
| `Sorting.dfy`, `Finite.dfy` | the stable sort, filters and counting facts |
| `Crypto.dfy`, `Merkle.dfy`, `Chunker.dfy`, `Pipeline.dfy`, `FileRoundTrip.dfy`, `FileOutcomes.dfy` | the file engine: two writers and four readers |
| `Downloads.dfy` | resumable downloads as a state machine over atomic steps |
| `DownloadSafety.dfy`, `DownloadLocality.dfy`, `DownloadControl.dfy`, `DownloadLoss.dfy`, `DownloadOnce.dfy`, `DownloadHistory.dfy`, `DownloadEndings.dfy`, `DownloadPauses.dfy`, `DownloadLaunches.dfy`, `DownloadContinues.dfy`, `DownloadRestores.dfy` | what its runs keep |
| `DownloadEffects.dfy` | each step spelled out as the change of the whole state |
| `DownloadManager.dfy` | the manager object whose methods are those steps |
| `SlidingWindow.dfy` | the sliding window sender and its three coroutines |
| `ChatGossip.dfy` | the chat flood over a connection graph |
| `Routing.dfy`, `Selector.dfy`, `Replication.dfy`, `SelfHealing.dfy` | placement and healing |
| `Framing.dfy`, `LocalStore.dfy` | length-prefixed messages; chunk files, eviction and the quota |

How the model is put together:

- **Laws, not ciphers.** A `Suite` holds the primitives. Round trips assume only that opening undoes
  sealing, that decompressing undoes compressing, and that a digest has 64 characters. Injectivity
  of the hash is assumed only on the strings a lemma names, because a hash of fixed length is never
  injective on all strings. Likewise, that a cipher refuses a foreign key is assumed only for the
  chunks of the file at hand. `Primitives.LawsAreSatisfiable` gives a suite that meets the laws.
- **Atomic steps.** Where the source awaits, the model has a state and a `Step` for the code between
  two awaits. Theorems quantify over every sequence of steps, so over every interleaving; a crash is
  a step that is always possible. Failing writes, failing loads, peers that refuse, and clock
  readings are fields of the steps.
- **Objects.** Code that updates fields in place is a class whose methods are proved equal to the
  specification functions that the theorems are about.
- **Exceptions** are values of a result type; the source's error branches are kept.

Where the code does something other than its comments or documentation say, the model follows the code:

- The sending loop after an ACK is a stub (`backend/strategies/sliding_window.py:179-186`). A file
  larger than the window is finished only as far as ACKs arrive while the fill loop still runs;
  once that loop has ended, the rest is never sent. `CanStallIffFileExceedsWindow` and
  `CanFinishIffWindowHasRoom` are the exact conditions.
- Giving up on a chunk does not end the transfer (`GivingUpNeverEnds`), and any ACK index is
  accepted; "done" can be believed exactly when every chunk was acknowledged after it
  had been sent (`DoneIsTrueIffEveryChunkWasHeard`; `EarlyAckIsBelieved` is a run where it cannot).
- `_seen_chat_ids.pop()` removes an arbitrary id, although its comment says the oldest, so
  at-most-once delivery holds up to 500 ids and, wherever two nodes are connected both ways, no
  further (`RedeliveryNeedsOverflow`, `RedeliveryNeedsAConnection`).
- `chunk_file_streaming` draws a salt per chunk. Only the pipeline merge always reads that back; the
  other three readers do exactly when all salts are equal or there is no password.
- `merge_chunks_to_disk` reports a verified Merkle root but checks only the file hash
  (`DiskMergeSkipsTheMerkleRoot`; `MergesAgreeExactly` says when the two merges agree).
- A Merkle proof does not bind a leaf of another length, and the root does not bind the number of
  leaves.
- A pause overwrites "completed"; `PauseTakesBackIffNearlyDone` says exactly when it can. After a
  fetch error and `clear_completed`, a download cannot be started again before a restart
  (`StartWorksUnlessStuck` says exactly when outside pauses, `StartWorksExactly` in general).
- A start call goes on with a stopped download only while that misses chunks. After a failed merge,
  or a pause that took a completed download back, it begins afresh and fetches everything again
  (`StartingOverFetchesAgain`; `FetchedOncePerFile` shows that nothing else does).
- `get_storage_size` counts every file in the directory, not only chunks, so the quota may stay
  exceeded (`OtherFilesKeepQuotaExceeded`). `RoundEndsWithinQuota` says exactly when a round ends
  within the quota, `QuotaIsRestored` exactly when it gets below nine tenths of it.

"Calm" runs launch no worker for a file between the moment a pause of that file begins to wait and
the moment it returns; all other calls may overlap. `LaunchCanDoubleIffPausePending` shows that this
is needed: a launch can lead to two live workers on its file exactly when a pause of the file is in
progress. `TwoWorkersFromTheStart` is such a run.

## Model

| member | source | states |
|---|---|---|
| `Crypto.ParseIsInverseOfLayout` | backend/file_engine/crypto.py:81-86 | a byte string parses to an envelope exactly when it is that envelope laid out as version, salt, nonce, tag, ciphertext |
| `Crypto.ParseAcceptsExactlyLayouts` | backend/file_engine/crypto.py:102-120 | a string parses exactly when it is the layout of some envelope with fields of the right sizes |
| `Crypto.RefusalsAreExact` | backend/file_engine/crypto.py:102-120 | decryption calls a string too short exactly when it is no layout, refuses its version exactly when that is not 1, and otherwise answers as the cipher does |
| `Crypto.DecryptUndoesEncrypt` | backend/file_engine/crypto.py:81-120 | for every plaintext, decrypting with the key, or with the password and the salt found in the data, gives it back |
| `Crypto.ForeignKeyIsRefused` | backend/file_engine/crypto.py:102-120 | under another key decryption ends in the authentication error exactly when the cipher refuses that one ciphertext; nothing is assumed of other keys or data |
| `Crypto.DecryptStepping` | backend/file_engine/crypto.py:102-120 | stepping an offset through the fields computes exactly the parse-then-open specification, error cases included |
| `Merkle.ComputeMerkleRoot` | backend/file_engine/chunker.py:62-75 | the level-rebuilding loop returns the root of the recursive tree in which an odd last node is paired with itself, and the hash of the empty string for no leaves |
| `Merkle.PairLevel` | backend/file_engine/chunker.py:86-94 | one pass over a level yields the level above and the sibling step of the tracked position |
| `Merkle.ComputeMerkleProof` | backend/file_engine/chunker.py:78-97 | the proof loop returns the sibling path of the index, bottom up; for an index out of range exactly the steps it still meets |
| `Merkle.VerifyMerkleProof` | backend/file_engine/chunker.py:100-107 | verification accepts exactly when folding the proof over the claimed leaf gives the root |
| `Merkle.MerkleCompleteness` | backend/file_engine/chunker.py:62-107 | for every hash function, non-empty leaf list and valid index, the generated proof folds to the computed root and has one step per level |
| `Merkle.HeightIsCeilingLog` | backend/file_engine/chunker.py:62-97 | the number of levels is the rounded-up binary logarithm of the number of leaves |
| `Merkle.MerkleBinding` | backend/file_engine/chunker.py:62-75 | when the hash is injective on what the two trees hash, equally long leaf lists with equal roots are equal |
| `Merkle.MerkleProofBinding` | backend/file_engine/chunker.py:78-107 | a proof with the honest directions that verifies against the root proves exactly the leaf at that index |
| `Merkle.OverlongLeafIsAccepted` | backend/file_engine/chunker.py:100-107 | verification checks no lengths: for every hash function and every tree of two or more leaves, a string that is no leaf verifies with the honest directions, so binding needs claims of digest length |
| `Merkle.RepeatedLastLeafKeepsRoot` | backend/file_engine/chunker.py:62-75 | for every odd number of leaves from three on, appending the last leaf again keeps the root, so binding needs equal lengths |
| `Merkle.ParentsHaveSameRoot` | backend/file_engine/chunker.py:62-75 | for every list of two or more leaves the shorter list of their parents has the same root, a second family of unequal lengths |
| `Merkle.RootIsPairwise` | backend/file_engine/chunker.py:62-75 | the root level by level: left before right, an odd last node with itself, one leaf is its own root, no leaves give the hash of the empty string |
| `Merkle.TreeOfTwo` | backend/file_engine/chunker.py:62-97 | the root of two leaves is the hash of the first followed by the second, and their proofs are each other on the right and on the left |
| `Merkle.ClimbingOneStep` | backend/file_engine/chunker.py:100-107 | verification hashes a right sibling after the hash so far and a left one before it |
| `Merkle.RootOfHalves` | backend/file_engine/chunker.py:62-75 | the root of two lists of 2^n leaves side by side is the hash of the left root followed by the right root |
| `Chunker.PiecesPartitionFile` | backend/file_engine/chunker.py:181-193 | the pieces of a file join to the file (to nothing for chunk size 0), none is empty, all but the last have exactly the chunk size, and a negative size reads the file in one piece |
| `Chunker.StreamChunks` | backend/file_engine/chunker.py:181-193 | the read loop yields exactly those pieces |
| `Chunker.StreamingFileHash` | backend/file_engine/chunker.py:196-208 | the block-wise digest equals the digest of the whole file |
| `Chunker.SizeTiers` | backend/file_engine/chunker.py:35-58 | 256 KB chunks below 50 MB, 1 MB below 500 MB, 4 MB from there on |
| `Chunker.ChunkFile` | backend/file_engine/chunker.py:245-310 | the returned chunks are the compressed and, with a password, encrypted pieces under one key; the manifest holds their hashes, sizes and indices, the file hash and the Merkle root |
| `Chunker.VerifyChunkHashes` | backend/file_engine/chunker.py:371-380 | the loop reports the first chunk whose digest differs from the manifest, or the digests of all |
| `Chunker.SliceAssignExtendsPrefix` | backend/file_engine/chunker.py:401-418 | assigning a slice at the end of the prefix extends the prefix by the data for every buffer size, growing the buffer when it is too short |
| `Chunker.MergeChunks` | backend/file_engine/chunker.py:363-432 | the pre-allocated buffer loop refines check, decode and plain concatenation for every original size, right, wrong or negative; every exception of the source is a distinct result |
| `Chunker.MergeChunksToDisk` | backend/file_engine/chunker.py:435-482 | the streaming merge computes the same concatenation, and what is left on disk after each kind of failure |
| `Pipeline.StoreRunner.Start` | backend/file_engine/pipeline.py:98-131 | starting a store appends it to those in flight and records the peak |
| `Pipeline.StoreRunner.Progress` | backend/file_engine/pipeline.py:98-131 | the event loop may land any prefix of the stores in flight at any time |
| `Pipeline.StoreRunner.Drain` | backend/file_engine/pipeline.py:98-131 | awaiting lands everything in flight |
| `Pipeline.LandedEarlyOrLate` | backend/file_engine/pipeline.py:98-131 | the final store contents do not depend on when stores land |
| `Pipeline.PipelineChunkAndStore` | backend/file_engine/pipeline.py:38-140 | produces the manifest of `chunk_file`, never has more than one store outstanding, none when it returns, and the store then holds every chunk |
| `Pipeline.PipelineMergeToDisk` | backend/file_engine/pipeline.py:143-224 | the prefetching loop equals loading and decoding one chunk after the other under its own salt, including where each failure surfaces and what it leaves on disk |
| `Pipeline.PipelineStreamFile` | backend/file_engine/pipeline.py:227-279 | the yields are the decoded pieces in order under the key of the first encrypted chunk, up to the first failure |
| `FileRoundTrip.SortUndoesShuffle` | backend/file_engine/chunker.py:369-376 | sorting by index recovers the written order from every simultaneous reordering of entries and data |
| `FileRoundTrip.WrittenPairsDecode` | backend/file_engine/chunker.py:271-302 | every written chunk decodes to its piece, all share one salt, all digests match |
| `FileRoundTrip.SharedKeyDecodesAll` | backend/file_engine/chunker.py:390-413 | when all chunks share a salt, the one key derived from the first decodes exactly what the per-chunk keys decode |
| `FileRoundTrip.MergeRoundTrip` | backend/file_engine/chunker.py:245-432 | `merge_chunks` of every shuffle of `chunk_file` output returns the file if and only if the chunk size is not 0 or the file is empty |
| `FileRoundTrip.ReadersAgree` | backend/file_engine/pipeline.py:143-279 | on chunks that share a salt all readers decode the same pieces and stop on the same error; both disk merges and the stream always, `merge_chunks` whenever its early checks of hashes, Merkle root and size pass |
| `FileRoundTrip.MergesAgreeExactly` | backend/file_engine/chunker.py:363-482 | on any manifest and data, `merge_chunks` succeeds if and only if its early checks pass and `merge_chunks_to_disk` succeeds, with the same bytes; so they differ exactly where a check fails and the other merge succeeds |
| `FileRoundTrip.DiskMergeSkipsTheMerkleRoot` | backend/file_engine/chunker.py:435-482 | with any other non-empty root in the manifest, `merge_chunks_to_disk` still returns the file and `merge_chunks` refuses |
| `FileRoundTrip.EveryReaderRoundTrips` | backend/file_engine/pipeline.py:143-279 | on `chunk_file` output all four readers return the original bytes |
| `FileRoundTrip.StoredChunksAreHeld` | backend/file_engine/pipeline.py:98-131 | after the pipeline wrote, each chunk is stored under its hash and other entries are untouched |
| `FileRoundTrip.PipelineRoundTrip` | backend/file_engine/pipeline.py:38-224 | what the pipeline wrote into any store, the pipeline and the stream read back as the file |
| `FileRoundTrip.FreshSaltsDefeatTheSharedKey` | backend/file_engine/chunker.py:313-360 | for `chunk_file_streaming` output the pipeline merge always reads the file back, and `merge_chunks`, `merge_chunks_to_disk` and the stream each do if and only if there is no password or all drawn salts are equal |
| `FileOutcomes.ChunksCarryTheirNonce` | backend/file_engine/crypto.py:77-87 | with a password each written chunk parses to version 1, the salt of the one key, its own nonce, and its compressed piece sealed under them |
| `FileOutcomes.NoNonceIsReused` | backend/file_engine/chunker.py:271-302 | two chunks of a file carry the same salt, and the same nonce only if the same nonce was drawn twice |
| `FileOutcomes.FreshChunksCarryTheirSalt` | backend/file_engine/chunker.py:313-360 | `chunk_file_streaming` seals each raw piece under its own salt and nonce |
| `FileOutcomes.ManifestDescribesTheFile` | backend/file_engine/chunker.py:245-310 | what a written manifest says of the file and of each chunk, field by field |
| `FileOutcomes.DecodeAllStops` | backend/file_engine/chunker.py:390-413 | a reader of chunk data puts out the decoded pieces up to the first chunk that fails, and that failure |
| `FileOutcomes.LoadDecodeStops` | backend/file_engine/pipeline.py:143-224 | the same for the pipeline merge, each chunk opened under the key of its own salt |
| `FileOutcomes.StreamStops` | backend/file_engine/pipeline.py:227-279 | the same for the stream, each chunk opened under the key of the first encrypted one |
| `FileOutcomes.FirstFailureIsUnique` | backend/file_engine/pipeline.py:143-279 | there is only one such result, so the three statements determine what the readers return |
| `FileOutcomes.DecodingOneChunk` | backend/file_engine/crypto.py:102-120 | a chunk that is not encrypted, or read without a password, is taken as it is; otherwise it is opened under the key at hand or that of its own salt |
| `FileOutcomes.MergeRefusalsAreExact` | backend/file_engine/chunker.py:363-432 | which check of `merge_chunks` refuses: the first wrong chunk digest, then the Merkle root, then a negative size, then the file digest, each exactly when it fails and those before pass |
| `FileOutcomes.WhatIsLeftOnDisk` | backend/file_engine/chunker.py:435-482 | the whole file without an error exactly when its digest is right, nothing when it is wrong, and after any other failure the pieces written so far |
| `DownloadSafety.EveryDownloadIsConsistent` | backend/api/download_manager.py:361-394 | over every run and interleaving, in memory and on disk, missing and completed are duplicate-free and split 0..total-1, completed chunks were received for the file and are in the store, and "completed" misses nothing when the manifest lists every index 0..total-1 |
| `DownloadSafety.StepIsSafe` | backend/api/download_manager.py:173-490 | each atomic step keeps that invariant together with the references between tasks, pauses and states |
| `DownloadSafety.MarkKeepsSplit` | backend/api/download_manager.py:383-387 | marking a chunk moves exactly its index from missing to completed |
| `DownloadSafety.WorkListIsOk` | backend/api/download_manager.py:353-367 | the worker visits exactly the listed chunks that are missing |
| `DownloadEffects.StartContinues` | backend/api/download_manager.py:202-244 | starting a tracked download that misses chunks keeps its object, with only status and password changed, and launches a worker on it |
| `DownloadEffects.StartLoadsResumeFile` | backend/api/download_manager.py:196-244 | starting a file that only a resume file knows tracks a new object with the lists in that file |
| `DownloadEffects.StartAfresh` | backend/api/download_manager.py:212-244 | only a file that nothing knows, or whose stopped download misses nothing, gets a new object with all of 0..total-1 missing |
| `DownloadEffects.StartIsIgnored` | backend/api/download_manager.py:196-200 | starting what says "downloading" changes nothing |
| `DownloadEffects.ResumeContinues` | backend/api/download_manager.py:286-321 | resuming a tracked download keeps its object, with only status and password changed, and writes no resume file |
| `DownloadEffects.ResumeLoadsResumeFile` | backend/api/download_manager.py:294-321 | resuming an untracked file tracks a new object with the lists in its resume file |
| `DownloadEffects.ResumeIsIgnored` | backend/api/download_manager.py:294-304 | resuming changes nothing when nothing knows the file, it says "downloading", or its manifest is gone |
| `DownloadEffects.PauseSignalsTheWorker` | backend/api/download_manager.py:248-265 | pausing a running download signals its worker and waits for it |
| `DownloadEffects.PauseFinishesAtOnce` | backend/api/download_manager.py:274-277 | with no worker to wait for, the download is marked paused and saved and its task entry dropped |
| `DownloadEffects.PauseReturns` | backend/api/download_manager.py:263-277 | a waiting pause returns once its worker has ended, and then marks and saves its own object |
| `DownloadEffects.ClearDropsTheFinished` | backend/api/download_manager.py:480-490 | exactly the completed and failed downloads are dropped, with their tasks |
| `DownloadEffects.BeginListsTheMissing` | backend/api/download_manager.py:353-372 | a worker begins with the listed chunks that are missing, in index order |
| `DownloadEffects.FetchedChunkIsKept` | backend/api/download_manager.py:361-417 | a received chunk is cached unless present and moves from missing to completed; every tenth is flushed; then the worker merges after the last chunk, ends if signalled, or goes on |
| `DownloadEffects.FailedFetchEnds` | backend/api/download_manager.py:396-405 | a failed fetch saves the progress as "downloading" and then marks the object failed |
| `DownloadEffects.MergeCompletes` | backend/api/download_manager.py:431-466 | a merge that works completes the download, sets the output and removes the resume file |
| `DownloadEffects.FailedMergeEnds` | backend/api/download_manager.py:431-466 | a merge that raises or reports an error marks and saves the download as failed and leaves no output |
| `DownloadEffects.UnremovableResumeFileFails` | backend/api/download_manager.py:431-466 | a resume file that cannot be removed turns a merge that worked into a failed one |
| `DownloadEffects.CancelledWorkerEnds` | backend/api/download_manager.py:419-429 | a cancelled worker that had begun marks its download paused and saves it; one that had not ends without a trace |
| `DownloadEffects.RestartRecovers` | backend/api/download_manager.py:155-169 | after a restart exactly the resume files are tracked, paused, with the lists in them |
| `DownloadEffects.UndisturbedWorker` | backend/api/download_manager.py:361-417 | an undisturbed worker receives its chunks in order up to the first that fails to load, and merges if and only if none does |
| `DownloadLocality.StepsAreLocal` | backend/api/download_manager.py:173-490 | a call or worker step about one file changes nothing of any other file: object, task, workers, pauses, resume file, output |
| `DownloadControl.StepIsOrderly` | backend/api/download_manager.py:173-490 | each step that does not launch a worker under a pause in progress keeps the link between tracked entry, task, worker and pause |
| `DownloadControl.OrderNeedsCalm` | backend/api/download_manager.py:196-329 | for start and resume calls that link is kept if and only if the call does not launch a worker under a pause in progress |
| `DownloadControl.OneWorkerPerFile` | backend/api/download_manager.py:196-321 | when nothing is launched under a pause in progress, at most one worker per file is ever live |
| `DownloadControl.StatusTellsTheTruth` | backend/api/download_manager.py:248-452 | then a live worker means "downloading"; "downloading" means a live worker unless a pause is about to return; "completed" means nothing is missing and the merged file has the manifest's hash |
| `DownloadControl.RecoverTracks` | backend/api/download_manager.py:155-169 | recovery tracks every resume file as paused and leaves everything else |
| `DownloadControl.MergeOutcome` | backend/api/download_manager.py:431-466 | a merge ends its worker with "completed" and a correctly hashed output, or with "error" |
| `DownloadLoss.StepBacksUp` | backend/api/download_manager.py:389-394 | each step with successful writes keeps the resume file a prefix of memory, short by at most the chunks since the last flush |
| `DownloadLoss.CrashRepeatsAtMostNineChunks` | backend/api/download_manager.py:391-405 | over every such run, with crashes, a crash during fetching loses at most nine completed chunks, and recovery has exactly the rest to fetch |
| `DownloadHistory.CompletedIsReceived` | backend/api/download_manager.py:361-394 | over every run without restart and clear, whatever overlaps, an object has completed exactly the chunks it received |
| `DownloadHistory.CompletedWasReceivedForTheFile` | backend/api/download_manager.py:155-169 | over every run, with restarts and clears, whatever an object has completed was received by an object for the same file and is completed there |
| `DownloadOnce.EachChunkIsFetchedOnce` | backend/api/download_manager.py:361-394 | across pauses and resumes no object receives the same chunk twice, when the manifest numbers its chunks distinctly; without restart and clear its completed chunks are exactly those received, so each was fetched once |
| `DownloadContinues.FetchedOncePerFile` | backend/api/download_manager.py:196-244 | over disciplined runs without restart, clear, and start calls on a stopped download that misses nothing, a file has one object and no chunk is received twice for it |
| `DownloadContinues.StartingOverFetchesAgain` | backend/api/download_manager.py:212-230 | a run from the start in which the merge fails and a start call on the complete list fetches the chunk a second time |
| `DownloadEndings.StuckUntilRestart` | backend/api/download_manager.py:196-200 | a file whose resume file says "downloading" while nothing tracks it stays that way through every run without a restart |
| `DownloadEndings.RestartFreesStuck` | backend/api/download_manager.py:155-169 | a restart makes it a paused download |
| `DownloadEndings.StartWorksUnlessStuck` | backend/api/download_manager.py:196-244 | outside pauses, `start_download` leaves a live worker if and only if the file is not stuck |
| `DownloadEndings.FailedFetchThenClearSticks` | backend/api/download_manager.py:402-405 | a fetch failure followed by `clear_completed` makes the file stuck, from every orderly state |
| `DownloadEndings.FailureDuringPause` | backend/api/download_manager.py:396-405 | a fetch that fails during a pause leaves a pause in progress over an "error" entry |
| `DownloadEndings.OverlappingResumeDoublesTheWorker` | backend/api/download_manager.py:274-277 | from there resume, end of the pause and resume again leave two live workers, one way to two workers |
| `DownloadPauses.PauseOverwritesCompleted` | backend/api/download_manager.py:274-275 | a pause called when the worker merges, fetches its last chunk or has nothing to fetch ends with "paused" and a resume file although the download had completed and the merged file is in place |
| `DownloadPauses.PauseTakesBackIffNearlyDone` | backend/api/download_manager.py:365-372 | a download can complete while its pause is in progress, and so be taken back, if and only if its worker was in one of those three positions when the pause was called |
| `DownloadPauses.TakenBackFromTheStart` | backend/api/download_manager.py:274-275 | a run from the start that does it to a file of one chunk |
| `DownloadPauses.StuckFromTheStart` | backend/api/download_manager.py:402-405 | a run from the start that makes a file stuck |
| `DownloadPauses.TwoWorkersFromTheStart` | backend/api/download_manager.py:274-277 | a run from the start with two live workers on one file |
| `DownloadLaunches.LaunchCanDoubleIffPausePending` | backend/api/download_manager.py:196-329 | from every state that runs of that discipline reach, a start or resume call that launches a worker can be followed, with all later launches disciplined, by two live workers on the file if and only if a pause of the file is in progress |
| `DownloadLaunches.PausesReturn` | backend/api/download_manager.py:269-284 | once the task entry is gone, all pauses of ended workers can return, one after the other, and a pause and a resume then launch a second worker beside the overlapping one |
| `DownloadLaunches.StartWorksExactly` | backend/api/download_manager.py:196-244 | with or without pauses in progress, `start_download` leaves a live worker if and only if neither an untracked resume file nor a tracked download whose worker has ended says "downloading" |
| `DownloadLaunches.PauseReturnFreesEntry` | backend/api/download_manager.py:269-284 | a tracked download of the second kind exists only under a pause whose worker has ended, and can be started once that pause returns |
| `DownloadRestores.MergeFindsEverything` | backend/api/download_manager.py:407-417 | when the final merge begins, every chunk of the manifest is in the store |
| `DownloadRestores.LeftAloneFinishes` | backend/api/download_manager.py:331-454 | from any progress, an undisturbed worker whose loads succeed completes with the merge of the right chunks |
| `DownloadRestores.LeftAloneRestoresTheFile` | backend/api/download_manager.py:331-454 | if the manifest came from `chunk_file`, that output is the original file |
| `DownloadManager.DownloadManager.constructor` | backend/api/download_manager.py:110-120 | construction recovers the listed resume files |
| `DownloadManager.DownloadManager.RecoverResumeFiles` | backend/api/download_manager.py:155-169 | the recovery loop equals the recursive specification |
| `DownloadManager.DownloadManager.SaveResume` | backend/api/download_manager.py:127-136 | a successful write replaces exactly this file's resume entry, a failed one changes nothing |
| `DownloadManager.DownloadManager.StartDownload` | backend/api/download_manager.py:173-246 | the whole new state is that of the start step |
| `DownloadManager.DownloadManager.PauseDownload` | backend/api/download_manager.py:248-265 | up to its wait, the new state is that of the pause step |
| `DownloadManager.DownloadManager.PauseTimesOut` | backend/api/download_manager.py:266-272 | the timeout only asks a live worker to cancel |
| `DownloadManager.DownloadManager.PauseReturns` | backend/api/download_manager.py:274-284 | marks, saves and drops the entry of the asyncio task, whatever happened meanwhile |
| `DownloadManager.DownloadManager.ResumeDownload` | backend/api/download_manager.py:286-329 | the whole new state is that of the resume step, which does not save |
| `DownloadManager.DownloadManager.ClearCompleted` | backend/api/download_manager.py:480-490 | the removal loop drops exactly the completed and failed entries with their tasks |
| `DownloadManager.DownloadManager.ChunksToFetch` | backend/api/download_manager.py:353-367 | the scan over the ordered chunks collects the missing ones |
| `DownloadManager.DownloadManager.MarkChunk` | backend/api/download_manager.py:383-387 | removes the first occurrence from missing, appends to completed unless there |
| `DownloadManager.DownloadManager.ChunkFetched` | backend/api/download_manager.py:376-394 | caches, marks, flushes every tenth chunk, then goes on, stops for a pause or enters the merge |
| `DownloadManager.DownloadManager.FetchFailed` | backend/api/download_manager.py:396-405 | saves before the status becomes "error" |
| `DownloadManager.DownloadManager.FinalMerge` | backend/api/download_manager.py:431-466 | runs the pipeline merge and ends as the merge step does, including a failing unlink of the resume file |
| `DownloadManager.DownloadManager.WorkerCancelled` | backend/api/download_manager.py:419-423 | marks "paused" and saves unless the asyncio task had not begun |
| `DownloadManager.DownloadManager.DownloadWorker` | backend/api/download_manager.py:331-429 | the worker loop, when nothing interrupts it, is the run of its atomic steps, with failing loads |
| `DownloadManager.DownloadManager.Restart` | backend/api/download_manager.py:110-120 | memory is lost and the resume files are recovered |
| `DownloadManager.DownloadManager.Drive` | backend/api/download_manager.py:102-490 | any schedule of calls, worker steps and restarts equals the run of its steps, so every theorem about runs is about the object |
| `SlidingWindow.EveryHonestRunIsSafe` | backend/strategies/sliding_window.py:94-177 | every interleaving with a peer that acknowledges only what it was sent: unacked stays within the window, unacked and acked are disjoint and are together the chunks sent, and done by ACKs means all acknowledged |
| `SlidingWindow.TransmissionsAreBounded` | backend/strategies/sliding_window.py:188-226 | no chunk is sent more than 1 + MAX_RETRIES times and a run sends at most 6 x total frames |
| `SlidingWindow.FreshAckLowersRemaining` | backend/strategies/sliding_window.py:165-177 | an ACK of an outstanding chunk lowers total - the number acked by one, and the measure reaches 0 exactly when done is set |
| `SlidingWindow.StepsKeepProgress` | backend/strategies/sliding_window.py:94-226 | when the window covers the file, no step of a connected honest transfer loses progress, and every fill and every first ACK adds to it |
| `SlidingWindow.UsefulStepsFinish` | backend/strategies/sliding_window.py:94-177 | so every such run, in whatever order its steps come, has finished once it has made more useful steps than the measure allows |
| `SlidingWindow.CoveredFileCompletes` | backend/strategies/sliding_window.py:94-177 | and from each of its states some schedule completes it |
| `SlidingWindow.StalledForever` | backend/strategies/sliding_window.py:179-186 | once the fill loop left chunks unsent they are never sent, and no ACKs set done |
| `SlidingWindow.CanStallIffFileExceedsWindow` | backend/strategies/sliding_window.py:94-102 | an honest run can stall if and only if the file has more chunks than the window |
| `SlidingWindow.CanFinishIffWindowHasRoom` | backend/strategies/sliding_window.py:94-102 | an honest, connected run can finish a file of any size if and only if the window has room for a chunk, because ACKs that arrive during the fill loop let it go on |
| `SlidingWindow.GivingUpNeverEnds` | backend/strategies/sliding_window.py:205-209 | without ACKs, loss or a failing send no run sets done or returns, however often the sweep gives up |
| `SlidingWindow.BogusAcksFinish` | backend/strategies/sliding_window.py:165-177 | ACKs for indices that were never sent end a transfer of which nothing was acknowledged honestly |
| `SlidingWindow.SweepListsExactlyTheTimedOut` | backend/strategies/sliding_window.py:194-202 | over every run a sweep lists an outstanding chunk if and only if more than 3.0 seconds have passed since its last frame, and nothing else |
| `SlidingWindow.SweepResendsExactlyTheTimedOut` | backend/strategies/sliding_window.py:194-226 | over every run a sweep, worked off, adds exactly one frame for each outstanding chunk that is older than that and has had at most five, restarts its timestamp, and adds none for any other |
| `SlidingWindow.ReturnsOnlyWhenDone` | backend/strategies/sliding_window.py:75-128 | the sender returns only when there was nothing to send, all ACKs are in, or the connection is lost |
| `SlidingWindow.DoneIsTrueIffEveryChunkWasHeard` | backend/strategies/sliding_window.py:165-177 | over every run, honest or not, once ACKs have set done, all chunks were sent, exactly they were acknowledged and none is outstanding if and only if each was acknowledged after it had been sent |
| `SlidingWindow.EarlyAckIsBelieved` | backend/strategies/sliding_window.py:165-177 | a run in which a chunk is acknowledged before it is sent: done is set, all chunks are sent and acknowledged, and that chunk is still outstanding |
| `SlidingWindow.SlidingWindowSender.FillWindow` | backend/strategies/sliding_window.py:94-102 | one turn of the fill loop equals its step |
| `SlidingWindow.SlidingWindowSender.SendChunk` | backend/strategies/sliding_window.py:134-143 | the chunk is in the window with a fresh retry count and its frame is handed to the connection |
| `SlidingWindow.SlidingWindowSender.HandleAck` | backend/strategies/sliding_window.py:165-186 | an ACK equals its step; the sliding loop after it does nothing |
| `SlidingWindow.SlidingWindowSender.SweepCollect` | backend/strategies/sliding_window.py:194-202 | the sweep snapshots, in sending order, exactly the outstanding chunks whose timestamp is more than 3.0 seconds old |
| `SlidingWindow.SlidingWindowSender.SweepNext` | backend/strategies/sliding_window.py:204-226 | one retransmission, or giving up without setting done |
| `SlidingWindow.SlidingWindowSender.Drive` | backend/strategies/sliding_window.py:75-128 | any schedule of the three coroutines equals the run of its steps |
| `ChatGossip.ChatNode.BroadcastToPeers` | backend/network/connection.py:214-219 | the packets are those to the connections whose sends succeed, in order, and the count is their number |
| `ChatGossip.ChatNode.HandleTcpChat` | backend/api/routes.py:647-673 | a known id changes nothing and is not forwarded; a new one is recorded, delivered once and forwarded to all connections |
| `ChatGossip.ChatNode.WebsocketChat` | backend/api/routes.py:596-640 | a typed message is recorded before it is delivered and sent |
| `ChatGossip.FloodDeliversAtMostOnce` | backend/api/routes.py:590-673 | over any finite graph and schedule with at most _MAX_SEEN ids, each node delivers each message at most once and a message is sent at most once per directed connection |
| `ChatGossip.QuietFloodReachedEverybody` | backend/api/routes.py:590-673 | when nothing of a message is in flight, exactly the nodes reachable from its origin have delivered it, once each |
| `ChatGossip.DeliveryLowersMeasure` | backend/api/routes.py:647-673 | each arrival lowers the number of sends that are still possible or in flight by one |
| `ChatGossip.FloodStops` | backend/api/routes.py:647-673 | hence runs without new messages are at most as long as the measure |
| `ChatGossip.SomethingCanArrive` | backend/api/routes.py:647-673 | and while anything is in flight some arrival is enabled |
| `ChatGossip.OverflowRedelivers` | backend/api/routes.py:616-620 | a node whose set is about to overflow can pop the id of a message still coming in and deliver it again, and no further messages take that back |
| `ChatGossip.RedeliveryIsReachable` | backend/api/routes.py:654-659 | in every graph with a two-way connection, runs from the start in which a node delivers a message twice, for every number of messages above _MAX_SEEN |
| `ChatGossip.RedeliveryNeedsOverflow` | backend/api/routes.py:654-659 | in every finite graph with a two-way connection, some run with n messages delivers one of them twice to a node if and only if n exceeds 500 |
| `ChatGossip.RedeliveryNeedsAConnection` | backend/api/routes.py:654-659 | when all connections are two-way, redelivery with n messages is possible if and only if there is a connection at all and n exceeds 500 |
| `Routing.XorIsMetric` | backend/dht/routing.py:13-20 | XOR distance is zero only at equality, symmetric, and obeys the triangle inequality |
| `Routing.ParseHexOfConcat` | backend/dht/routing.py:13-20 | appending hex digits shifts the value by four bits a digit, so the more significant digits come first |
| `Routing.DigitValues` | backend/dht/routing.py:13-20 | the literal value of every digit, in both cases |
| `Routing.ParseHexIsTotalOnDigits` | backend/dht/routing.py:13-20 | an id parses if and only if it is not empty and has only hex digits |
| `Routing.FirstDifferenceDecides` | backend/dht/routing.py:13-20 | between ids of equal length the first differing digit decides the order |
| `Routing.XorComparesBits` | backend/dht/routing.py:13-20 | bit by bit, XOR says where two numbers differ |
| `Routing.OnePointPerDistance` | backend/dht/routing.py:13-20 | at each distance from a target there is exactly one point |
| `Routing.FindClosestPeers` | backend/dht/routing.py:23-53 | the collecting loop and the stable sort return the specified ranking, skipping ids that do not parse |
| `Routing.ClosestIsNearest` | backend/dht/routing.py:39-53 | the result is sorted, duplicate-free, of size min(k, rankable ids), and nothing left out is strictly closer |
| `Routing.ClosestHaveFewAhead` | backend/dht/routing.py:39-53 | an id is among the k closest if and only if it parses and fewer than k ids are nearer, or as near and listed earlier |
| `Routing.ClosestAreInOrder` | backend/dht/routing.py:39-53 | the result is in that order, ties included |
| `Routing.RankingUsesLowBits` | backend/dht/routing.py:39-47 | ranking 40-digit node ids against a longer hash depends only on the hash's low 160 bits |
| `Routing.RoutingTable.AssignChunk` | backend/dht/routing.py:66-69 | replaces exactly one entry |
| `Routing.RoutingTable.RemovePeerFromAll` | backend/dht/routing.py:75-87 | removes the peer from every list that has it and returns exactly those chunks |
| `Routing.RemoveFirstFilters` | backend/dht/routing.py:75-87 | on duplicate-free lists removing the first occurrence removes the peer |
| `Selector.NormalizeScales` | backend/strategies/selector.py:14-21 | normalised values lie in 0..1 and keep the order |
| `Selector.ScorePeers` | backend/strategies/selector.py:24-59 | the loop and the sort return the specified ranking |
| `Selector.RankingIsSortedPermutation` | backend/strategies/selector.py:24-59 | the ranking is a permutation of the peers with their rounded scores, no score below a later one |
| `Selector.BetterPeerScoresNoLower` | backend/strategies/selector.py:33-47 | more space, more uptime and less latency never lower the score, which lies in -1..2 |
| `Selector.NormalizeIsLinear` | backend/strategies/selector.py:14-21 | each quantity is scaled linearly from the least to the greatest value, and to 0.5 when all are equal |
| `Selector.ScoreIsTheSum` | backend/strategies/selector.py:33-47 | scaled space plus scaled uptime minus scaled latency, with equal weights |
| `Selector.StrictlyBetterScoresHigher` | backend/strategies/selector.py:33-47 | a peer that is as good in every respect scores the same only if it is equal in every respect |
| `Replication.SelectTargets` | backend/strategies/replication.py:78-101 | the combining loops return the specified target list |
| `Replication.TargetsAreDistinctPeers` | backend/strategies/replication.py:78-101 | min(k, n) distinct known peers, the XOR-nearest first |
| `Replication.ValidIdsDecideTargets` | backend/strategies/replication.py:78-101 | when k ids parse, or all do, the result is exactly the XOR-nearest list, so scores only fill slots that invalid ids leave |
| `Replication.SlotsGoToTheBestScores` | backend/strategies/replication.py:78-101 | the targets are the XOR-nearest peers followed by the best scored of the others until there are k, best first |
| `Replication.PlaceChunk` | backend/strategies/replication.py:48-70 | targets are chosen, sent to and recorded; the report names the receivers and the number of copies |
| `Replication.ReplicateChunks` | backend/strategies/replication.py:33-76 | every chunk that has data is stored locally with other files unchanged, the routing table is the specified one, and the result reports each chunk |
| `Replication.ReplicationRecordsHolders` | backend/strategies/replication.py:48-66 | each chunk ends with this node followed by the targets whose sends succeeded |
| `Replication.HoldersAcceptedTheChunk` | backend/strategies/replication.py:48-66 | for every outcome of the sends, this node comes first and then, in target order, exactly the targets to which the send succeeded |
| `Replication.ReportsNameTheReceivers` | backend/strategies/replication.py:56-70 | a report names exactly those targets in that order, and counts one copy more |
| `Replication.NoTargetsNoRecord` | backend/strategies/replication.py:45-54 | without peers, or with factor 0, the routing table is unchanged |
| `Replication.OtherChunksKeepHolders` | backend/strategies/replication.py:33-76 | chunks that were not replicated keep their holders |
| `SelfHealing.SelfHealingManager.CheckAndHeal` | backend/advanced/self_healing.py:55-119 | one pass over the routing table changes it to the table healed entry by entry |
| `SelfHealing.SelfHealingManager.FindUnderReplicated` | backend/advanced/self_healing.py:64-71 | the scan collects exactly the chunks with fewer than k alive holders and prunes them in the table |
| `SelfHealing.SelfHealingManager.HealChunk` | backend/advanced/self_healing.py:78-117 | tops one chunk up with the nearest other alive peers whose sends succeed |
| `SelfHealing.HealingIsConservative` | backend/advanced/self_healing.py:55-119 | every alive holder stays, lists stay duplicate-free, chunks with k alive holders are unchanged, and no under-replicated one exceeds k |
| `SelfHealing.HealingReachesTheFactor` | backend/advanced/self_healing.py:55-119 | with successful sends a locally stored chunk ends with min(k, alive holders + other alive peers with valid ids) |
| `SelfHealing.NewHoldersAcceptedTheChunk` | backend/advanced/self_healing.py:64-119 | for every outcome of the sends, the holders of an under-replicated chunk are its alive holders and, if it is stored locally, those of the nearest other alive peers, as many as are missing, to which the send succeeded |
| `SelfHealing.NobodyNearerIsLeftUnasked` | backend/advanced/self_healing.py:90-98 | no peer that is asked is farther from the chunk than a candidate left unasked |
| `SelfHealing.HealingIsIdempotent` | backend/advanced/self_healing.py:55-119 | with the same alive set and the same send outcomes, successes or failures, a second pass changes nothing for a chunk |
| `SelfHealing.SecondPassChangesNothing` | backend/advanced/self_healing.py:55-119 | the same for the whole table |
| `SelfHealing.FreshReplicasNeedNoHealing` | backend/strategies/replication.py:48-66 | what replication recorded with k successful sends is left alone by healing |
| `Framing.HeaderRoundTrip` | backend/network/connection.py:33-38 | four bytes are the big-endian header of exactly the length they decode to |
| `Framing.HeaderIsBigEndian` | backend/network/connection.py:33-44 | the header is big-endian, written out for all four bytes in both directions |
| `Framing.PeerConnection.Send` | backend/network/connection.py:33-38 | appends one frame, or raises before writing when the length does not fit four bytes |
| `Framing.PeerConnection.Receive` | backend/network/connection.py:40-50 | returns the next message and leaves the stream after its frame, or nothing on any error |
| `Framing.PeerConnection.MessageLoop` | backend/network/connection.py:140-145 | the loop hands on everything up to the first receive that yields nothing |
| `Framing.TruncatedStreamYieldsWholeFrames` | backend/network/connection.py:33-50 | however the stream is cut, the receiver returns exactly the messages that arrived whole |
| `Framing.ArrivalsAreWholeFrames` | backend/network/connection.py:33-50 | those are the longest prefix of the messages whose frames fit into the bytes |
| `Framing.StreamRoundTrip` | backend/network/connection.py:33-50 | the whole stream gives back all messages if and only if no payload exceeds 8 MB, a limit which only the receiver checks |
| `LocalStore.LocalStore.SaveChunk` | backend/storage/local_store.py:29-38 | the chunk is stored under its name and every other file is unchanged |
| `LocalStore.LocalStore.LoadChunk` | backend/storage/local_store.py:40-49 | returns the stored bytes exactly when the chunk exists and changes only its access time |
| `LocalStore.LocalStore.HasChunk` | backend/storage/local_store.py:51-53 | true exactly when the file exists |
| `LocalStore.LocalStore.DeleteChunk` | backend/storage/local_store.py:55-62 | removes exactly that file and says whether it existed |
| `LocalStore.LocalStore.GetStorageSize` | backend/storage/local_store.py:86-92 | the sum over every file, chunk or not |
| `LocalStore.LocalStore.EvictOldestChunks` | backend/storage/local_store.py:98-122 | the loop removes the specified files, skips those it cannot unlink, and returns their bytes |
| `LocalStore.EvictsShortestPrefix` | backend/storage/local_store.py:109-120 | the removed files are the shortest prefix of the removable chunk files in access order whose sizes reach the target, or all of them; no other length qualifies |
| `LocalStore.EvictionIsLeastRecentlyUsed` | backend/storage/local_store.py:98-122 | other files stay, and nothing removed was accessed after a removable chunk that stays |
| `LocalStore.EvictionConserves` | backend/storage/local_store.py:108-122 | storage shrinks by exactly the bytes reported |
| `LocalStore.LocalStore.EnforceQuota` | backend/advanced/garbage_collector.py:25-37 | one round evicts if and only if the quota is exceeded, and what it frees is what storage loses |
| `LocalStore.QuotaIsRestored` | backend/advanced/garbage_collector.py:25-37 | after a round, use is below 0.9 x quota + 1 byte if and only if the removable chunk files hold the target |
| `LocalStore.RoundEndsWithinQuota` | backend/advanced/garbage_collector.py:25-37 | a round ends within the quota if and only if the removable chunk files hold the bytes by which it was exceeded |
| `LocalStore.OtherFilesKeepQuotaExceeded` | backend/storage/local_store.py:86-92 | a directory whose other files exceed the quota, where no round frees anything |

## Left out

- The internals of SHA-256, PBKDF2, AES-GCM, zstd and msgpack, and the choice of random salts and nonces: they are parameters with laws.
- HTTP handlers other than chat, `client.py`, `main.py`, `node.py`, the frontend, discovery, handshakes, signatures, heartbeat and health checks: request plumbing, authentication or wall-clock behaviour.
- SQLite and node state: a map from file hash to manifest is enough. In the download model that map is fixed, so a manifest does not change between start and resume.
- Process pools and threads: the parallel functions of `crypto.py` are the same maps, run elsewhere.
- The file system: paths, permissions and partly written chunk files. Reading a source file that does not exist is not modelled. A resume file that is not valid JSON is skipped by the source and does not occur here, because resume files are written atomically.
- Output files are keyed by the whole file hash; the source uses its first 16 characters.
- Final merge as one step: its loads are spread over several awaits in the source. The store only gains chunks, and all listed chunks are there when the merge begins, so the loads see the same bytes.
- Chunks of the sliding window are numbered 0..total-1 in sending order, as a manifest does; `replicate_file`, which picks the peers, is not modelled.
- The statistics of `send_all`, progress percentages and timestamps other than those that decide a retransmission.
- Rounding: scores are reals, and the rounding to four digits is an arbitrary function, so ties after rounding are covered. The eviction target is the floor of an exact rational instead of a float product.
- Python's `int(s, 16)` also accepts prefixes, signs, spaces and underscores; ids here are plain hex digits or invalid.
- The replication factor of `_select_targets` is a natural number; `find_closest_peers` is modelled with the slice semantics of negative values.
- Self-healing as one pass: other updates of the routing table between its awaits, and the order in which a dictionary lists its keys, are not modelled. Send outcomes are a function of chunk and peer.
- Chat connections are fixed during a flood and sends succeed in the network theorems; `broadcast_to_peers` alone is modelled with failing sends.
- Exceptions raised by the store callback of `pipeline_chunk_and_store`.
- The position of a rewritten file in a directory listing: files with equal access time are evicted in listing order, and here a written file moves to the end of the listing.
- `DownloadState` objects are entries of a sequence, and the tracker, workers and pauses refer to them by index, so aliasing is kept; a Python object's identity is otherwise not modelled. Titles, sizes, timestamps and error messages of a download are left out.
- Replication.ReplicateChunks: does not model the node state that `register_chunk` updates.
- DownloadOnce.EachChunkIsFetchedOnce: counts per download object; after a restart or a clear an object loaded from disk starts its own count, and what it already had completed was received by an earlier one.
- DownloadLoss.CrashRepeatsAtMostNineChunks: assumes that every resume write so far succeeded; a failed write is only logged by the source and leaves the older file.
- SlidingWindow.CoveredFileCompletes: whether the peer ever acknowledges is up to the peer.
- A broadcast in the chat network is one step; the source awaits once per connection, so other messages can arrive at the sender in between.
