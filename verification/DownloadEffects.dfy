/** What each step does, spelled out as the change of the state: which object, entry, worker,
    pause, resume file, chunk and output it changes, and that it changes nothing else. */
module DownloadEffects {
  import opened Primitives
  import opened Sorting
  import opened Downloads
  import opened DownloadSafety
  import opened DownloadLocality
  import opened DownloadControl
  import Chunker
  import Pipeline

  // ---- start_download and resume_download ----

  /** A resume file written for the object, without its password. */
  function Written(disk: map<Bytes, Download>, d: Download, saved: bool): map<Bytes, Download> {
    if saved then disk[d.file := d.(password := [])] else disk
  }

  /** Starting a tracked download that misses chunks goes on with the same object: only its status
      and password change. */
  lemma StartContinues(sys: System, g: State, file: Bytes, password: Bytes, saved: bool)
    requires Safe(sys, g) && Tracked(g, file)
    requires g.objects[g.downloads[file]].status != Downloading && g.objects[g.downloads[file]].missing != []
    ensures var id := g.downloads[file];
            var d := g.objects[id].(status := Downloading, password := password);
            Next(sys, g, Start(file, password, saved)) ==
            g.(objects := g.objects[id := d], disk := Written(g.disk, d, saved),
               workers := g.workers + [Worker(file, id, Created, false, false)],
               tasks := g.tasks[file := |g.workers|])
  {
    RewritingInPlace(g.objects, g.downloads[file], g.disk, file, g.objects[g.downloads[file]]);
    assert g.downloads[file := g.downloads[file]] == g.downloads;
  }

  /** Starting a file that only its resume file knows goes on with the lists in that file. */
  lemma StartLoadsResumeFile(sys: System, g: State, file: Bytes, password: Bytes, saved: bool)
    requires Safe(sys, g) && file !in g.downloads && file in g.disk
    requires g.disk[file].status != Downloading && g.disk[file].missing != []
    ensures var d := g.disk[file].(status := Downloading, password := password);
            Next(sys, g, Start(file, password, saved)) ==
            g.(objects := g.objects + [d], downloads := g.downloads[file := |g.objects|],
               disk := Written(g.disk, d, saved),
               workers := g.workers + [Worker(file, |g.objects|, Created, false, false)],
               tasks := g.tasks[file := |g.workers|])
  {
  }

  /** Only a file that nothing knows, or whose download misses nothing, is started afresh, with
      every chunk number missing. */
  lemma StartAfresh(sys: System, g: State, file: Bytes, password: Bytes, saved: bool)
    requires Safe(sys, g)
    requires if file in g.downloads then g.objects[g.downloads[file]].status != Downloading
                                         && g.objects[g.downloads[file]].missing == []
             else file in g.disk ==> g.disk[file].status != Downloading && g.disk[file].missing == []
    ensures var n := |sys.manifest(file).chunks|;
            var d := Download(file, n, seq(n, i => i), [], Downloading, password);
            Next(sys, g, Start(file, password, saved)) ==
            g.(objects := g.objects + [d], downloads := g.downloads[file := |g.objects|],
               disk := Written(g.disk, d, saved),
               workers := g.workers + [Worker(file, |g.objects|, Created, false, false)],
               tasks := g.tasks[file := |g.workers|])
  {
    assert Indices(|sys.manifest(file).chunks|) == seq(|sys.manifest(file).chunks|, i => i);
  }

  /** Starting what says "downloading" does nothing. */
  lemma StartIsIgnored(sys: System, g: State, file: Bytes, password: Bytes, saved: bool)
    requires Safe(sys, g)
    requires if file in g.downloads then g.objects[g.downloads[file]].status == Downloading
             else file in g.disk && g.disk[file].status == Downloading
    ensures Next(sys, g, Start(file, password, saved)) == g
  {
  }

  /** Resuming a tracked download goes on with the same object, whatever it misses, and writes no
      resume file. */
  lemma ResumeContinues(sys: System, g: State, file: Bytes, password: Bytes)
    requires Safe(sys, g) && Tracked(g, file) && g.objects[g.downloads[file]].status != Downloading
    ensures var id := g.downloads[file];
            Next(sys, g, Resume(file, password, true)) ==
            g.(objects := g.objects[id := g.objects[id].(status := Downloading, password := password)],
               workers := g.workers + [Worker(file, id, Created, false, false)],
               tasks := g.tasks[file := |g.workers|])
  {
    assert g.downloads[file := g.downloads[file]] == g.downloads;
  }

  lemma ResumeLoadsResumeFile(sys: System, g: State, file: Bytes, password: Bytes)
    requires Safe(sys, g) && file !in g.downloads && file in g.disk && g.disk[file].status != Downloading
    ensures Next(sys, g, Resume(file, password, true)) ==
            g.(objects := g.objects + [g.disk[file].(status := Downloading, password := password)],
               downloads := g.downloads[file := |g.objects|],
               workers := g.workers + [Worker(file, |g.objects|, Created, false, false)],
               tasks := g.tasks[file := |g.workers|])
  {
  }

  /** Resuming does nothing when nothing knows the file, when it says "downloading", or when its
      manifest is gone. */
  lemma ResumeIsIgnored(sys: System, g: State, file: Bytes, password: Bytes, known: bool)
    requires Safe(sys, g)
    requires || !known || (file !in g.downloads && file !in g.disk)
             || (file in g.downloads && g.objects[g.downloads[file]].status == Downloading)
             || (file !in g.downloads && file in g.disk && g.disk[file].status == Downloading)
    ensures Next(sys, g, Resume(file, password, known)) == g
  {
  }

  // ---- pause_download ----

  /** A pause of a running download signals its worker and waits. */
  lemma PauseSignalsTheWorker(sys: System, g: State, file: Bytes, saved: bool)
    requires Safe(sys, g) && Tracked(g, file) && g.objects[g.downloads[file]].status == Downloading
    requires file in g.tasks && g.workers[g.tasks[file]].phase != Ended
    ensures var w := g.tasks[file];
            Next(sys, g, PauseBegin(file, saved)) ==
            g.(workers := g.workers[w := g.workers[w].(signalled := true)],
               pauses := g.pauses + [Pause(file, g.downloads[file], w, false)])
  {
  }

  /** With no worker left to wait for, the download is marked paused, saved, and its task entry
      dropped. */
  lemma PauseFinishesAtOnce(sys: System, g: State, file: Bytes, saved: bool)
    requires Safe(sys, g) && Tracked(g, file) && g.objects[g.downloads[file]].status == Downloading
    requires file in g.tasks ==> g.workers[g.tasks[file]].phase == Ended
    ensures var id := g.downloads[file];
            var d := g.objects[id].(status := Paused);
            var h := Next(sys, g, PauseBegin(file, saved));
            && h == g.(objects := g.objects[id := d], disk := Written(g.disk, d, saved), tasks := g.tasks - {file},
                       workers := h.workers)
            && |h.workers| == |g.workers|
            && (forall w :: 0 <= w < |g.workers| ==>
                  h.workers[w] == if file in g.tasks && w == g.tasks[file] then g.workers[w].(signalled := true)
                                  else g.workers[w])
  {
  }

  lemma PauseIsIgnored(sys: System, g: State, file: Bytes, saved: bool)
    requires file !in g.downloads || (Tracked(g, file) && g.objects[g.downloads[file]].status != Downloading)
    ensures Next(sys, g, PauseBegin(file, saved)) == g
  {
  }

  /** A pause that waited too long cancels its worker, if that still runs. */
  lemma PauseTimeoutCancels(sys: System, g: State, k: nat)
    requires Safe(sys, g) && k < |g.pauses| && !g.pauses[k].returned
    ensures g.pauses[k].worker < |g.workers|
    ensures var w := g.pauses[k].worker;
            Next(sys, g, PauseTimeout(k)) ==
            if g.workers[w].phase == Ended then g else g.(workers := g.workers[w := g.workers[w].(cancelled := true)])
  {
    PausesUseTheirFile(sys, g, k);
  }

  /** A pause returns once its worker has ended, and marks its own object. */
  lemma PauseReturns(sys: System, g: State, k: nat, saved: bool)
    requires Safe(sys, g) && k < |g.pauses| && !g.pauses[k].returned
    ensures g.pauses[k].worker < |g.workers| && g.pauses[k].download < |g.objects|
    ensures var p := g.pauses[k];
            var d := g.objects[p.download].(status := Paused);
            Next(sys, g, PauseEnd(k, saved)) ==
            if g.workers[p.worker].phase != Ended then g
            else g.(objects := g.objects[p.download := d], disk := Written(g.disk, d, saved),
                    tasks := g.tasks - {p.file}, pauses := g.pauses[k := p.(returned := true)])
  {
    PausesUseTheirFile(sys, g, k);
  }

  /** Exactly the tracked downloads that completed or failed are dropped, with their tasks. */
  lemma ClearDropsTheFinished(sys: System, g: State, file: Bytes)
    requires Safe(sys, g)
    ensures var h := Next(sys, g, ClearCompleted);
            var finished := file in g.downloads && (g.objects[g.downloads[file]].status == Completed ||
                                                    g.objects[g.downloads[file]].status == Failed);
            && h == g.(downloads := h.downloads, tasks := h.tasks)
            && (file in h.downloads <==> file in g.downloads && !finished)
            && (file in h.downloads ==> h.downloads[file] == g.downloads[file])
            && (file in h.tasks <==> file in g.tasks && !finished)
            && (file in h.tasks ==> h.tasks[file] == g.tasks[file])
  {
  }

  // ---- The worker ----

  /** A worker can make a step of its own: it has not ended and no cancellation is due. */
  ghost predicate Goes(sys: System, g: State, w: nat) {
    Safe(sys, g) && w < |g.workers| && g.workers[w].phase != Ended && !g.workers[w].cancelled
  }

  lemma GoingWorkersRun(sys: System, g: State, w: nat)
    requires Goes(sys, g, w)
    ensures Runs(g, w) && UsesItsFile(g, w)
    ensures g.workers[w].phase.Fetching? ==> g.workers[w].phase.todo != []
  {
    WorkersUseTheirFile(sys, g, w);
    WorkerIsOk(sys, g, w);
  }

  /** The worker's new place in a state. */
  function Moved(g: State, w: nat, phase: Phase): seq<Worker>
    requires w < |g.workers|
  {
    g.workers[w := g.workers[w].(phase := phase)]
  }

  /** A worker begins with the listed chunks that are missing, in index order; signalled before it
      began, it ends unless there is nothing to fetch. */
  lemma BeginListsTheMissing(sys: System, g: State, w: nat, saved: bool)
    requires Goes(sys, g, w) && g.workers[w].phase == Created
    ensures g.workers[w].download < |g.objects|
    ensures var file, d := g.workers[w].file, g.objects[g.workers[w].download];
            var missing := (c: Chunker.ChunkInfo) => c.index in d.missing;
            var todo := Filter(missing, Sort(Chunker.InfoByIndex, sys.manifest(file).chunks));
            Next(sys, g, Begin(w, saved)) ==
            if todo == [] then
              g.(disk := Written(g.disk, d, saved), workers := Moved(g, w, Merging), outputs := g.outputs - {file})
            else if g.workers[w].signalled then g.(workers := Moved(g, w, Ended))
            else g.(workers := Moved(g, w, Fetching(todo, 0)))
  {
    GoingWorkersRun(sys, g, w);
    var d := g.objects[g.workers[w].download];
    FilterAgrees(Lists(d.missing), (c: Chunker.ChunkInfo) => c.index in d.missing,
                 Sort(Chunker.InfoByIndex, sys.manifest(d.file).chunks));
  }

  /** The object after a chunk was received: its number has moved to the end of `completed`. */
  function WithChunk(d: Download, i: int): Download {
    d.(missing := Filter(j => j != i, d.missing),
       completed := if i in d.completed then d.completed else d.completed + [i])
  }

  lemma {:induction false} RemovingFilters(s: seq<int>, x: int)
    requires NoDup(s)
    ensures RemoveFirst(s, x) == Filter(j => j != x, s)
  {
    if s != [] {
      assert s == [s[0]] + s[1..] && s[0] !in s[1..];
      if s[0] == x {
        FilterKeepsAll(j => j != x, s[1..]);
      } else {
        RemovingFilters(s[1..], x);
      }
    }
  }

  /** The state after a chunk was received, cached and marked, before the worker goes on. */
  function WithFetched(g: State, w: nat, data: Bytes): State
    requires w < |g.workers| && g.workers[w].phase.Fetching? && g.workers[w].phase.todo != []
    requires g.workers[w].download < |g.objects|
  {
    var id, c := g.workers[w].download, g.workers[w].phase.todo[0];
    g.(objects := g.objects[id := WithChunk(g.objects[id], c.index)],
       store := if c.chunkHash in g.store then g.store else g.store[c.chunkHash := data],
       fetched := g.fetched + [Fetch(id, g.workers[w].file, c.index)])
  }

  lemma ReceiveMarks(sys: System, g: State, w: nat, data: Bytes, saved: bool)
    requires Goes(sys, g, w) && g.workers[w].phase.Fetching? && Runs(g, w) && g.workers[w].phase.todo != []
    ensures var h := WithFetched(g, w, data);
            Receive(g, w, data, saved) ==
            if g.workers[w].phase.sinceFlush >= 9
            then h.(disk := Written(g.disk, h.objects[g.workers[w].download], saved)) else h
  {
    var id := g.workers[w].download;
    ObjectIsOk(sys, g, id);
    RemovingFilters(g.objects[id].missing, g.workers[w].phase.todo[0].index);
  }

  lemma AdvanceTakes(g: State, w: nat, todo: seq<Chunker.ChunkInfo>, sinceFlush: nat, saved: bool)
    requires Live(g, w)
    ensures Advance(g, w, todo, sinceFlush, saved) ==
            if todo == [] then
              g.(disk := Written(g.disk, g.objects[g.workers[w].download], saved), workers := Moved(g, w, Merging),
                 outputs := g.outputs - {g.workers[w].file})
            else if g.workers[w].signalled then g.(workers := Moved(g, w, Ended))
            else g.(workers := Moved(g, w, Fetching(todo, sinceFlush)))
  {
  }

  lemma WrittenTwice(disk: map<Bytes, Download>, d: Download, saved: bool)
    ensures Written(Written(disk, d, saved), d, saved) == Written(disk, d, saved)
  {
  }

  lemma FetchFlushes(sys: System, g: State, w: nat, data: Bytes, saved: bool)
    requires Goes(sys, g, w) && Runs(g, w) && g.workers[w].phase.Fetching? && g.workers[w].phase.todo != []
    requires g.workers[w].phase.sinceFlush >= 9
    ensures var h := WithFetched(g, w, data);
            Next(sys, g, FetchOk(w, data, saved)) ==
            Advance(h.(disk := Written(g.disk, h.objects[g.workers[w].download], saved)), w,
                    g.workers[w].phase.todo[1..], 0, saved)
  {
    ReceiveMarks(sys, g, w, data, saved);
  }

  lemma FetchDoesNotFlush(sys: System, g: State, w: nat, data: Bytes, saved: bool)
    requires Goes(sys, g, w) && Runs(g, w) && g.workers[w].phase.Fetching? && g.workers[w].phase.todo != []
    requires g.workers[w].phase.sinceFlush < 9
    ensures Next(sys, g, FetchOk(w, data, saved)) ==
            Advance(WithFetched(g, w, data), w, g.workers[w].phase.todo[1..], g.workers[w].phase.sinceFlush + 1, saved)
  {
    ReceiveMarks(sys, g, w, data, saved);
  }

  /** A received chunk is cached unless it is there, and marked. Every tenth is flushed. Then the
      worker enters the merge after its last chunk, saving once more; ends if it was signalled; or
      goes on with the next. */
  lemma FetchedChunkIsKept(sys: System, g: State, w: nat, data: Bytes, saved: bool)
    requires Goes(sys, g, w) && g.workers[w].phase.Fetching?
    ensures g.workers[w].download < |g.objects| && g.workers[w].phase.todo != []
    ensures var phase, h := g.workers[w].phase, WithFetched(g, w, data);
            var flush := phase.sinceFlush >= 9;
            var last := |phase.todo| == 1;
            Next(sys, g, FetchOk(w, data, saved)) ==
            h.(disk := if flush || last then Written(g.disk, h.objects[g.workers[w].download], saved) else g.disk,
               outputs := if last then g.outputs - {g.workers[w].file} else g.outputs,
               workers := Moved(g, w, if last then Merging else if g.workers[w].signalled then Ended
                                      else Fetching(phase.todo[1..], if flush then 0 else phase.sinceFlush + 1)))
  {
    GoingWorkersRun(sys, g, w);
    var phase, h := g.workers[w].phase, WithFetched(g, w, data);
    var d := h.objects[g.workers[w].download];
    assert phase.todo[1..] == [] <==> |phase.todo| == 1;
    if phase.sinceFlush >= 9 {
      FetchFlushes(sys, g, w, data, saved);
      WrittenTwice(g.disk, d, saved);
      AdvanceTakes(h.(disk := Written(g.disk, d, saved)), w, phase.todo[1..], 0, saved);
    } else {
      FetchDoesNotFlush(sys, g, w, data, saved);
      AdvanceTakes(h, w, phase.todo[1..], phase.sinceFlush + 1, saved);
    }
  }

  /** A failed fetch ends the worker: its progress is saved while it says "downloading", then the
      object is marked failed. */
  lemma FailedFetchEnds(sys: System, g: State, w: nat, saved: bool)
    requires Goes(sys, g, w) && g.workers[w].phase.Fetching?
    ensures g.workers[w].download < |g.objects|
    ensures var id := g.workers[w].download;
            Next(sys, g, FetchFails(w, saved)) ==
            g.(objects := g.objects[id := g.objects[id].(status := Failed)],
               disk := Written(g.disk, g.objects[id], saved), workers := Moved(g, w, Ended))
  {
    GoingWorkersRun(sys, g, w);
  }

  ghost predicate MergeWorks(sys: System, g: State, w: nat, merged: Bytes)
    requires w < |g.workers| && g.workers[w].download < |g.objects|
  {
    Pipeline.PipelineMerged(sys.suite, g.store, sys.manifest(g.workers[w].file),
                            g.objects[g.workers[w].download].password) == Chunker.DiskOutcome(None, Some(merged))
  }

  /** A merge that works completes the download: its output is the merged file, and its resume
      file is removed. */
  lemma MergeCompletes(sys: System, g: State, w: nat, saved: bool, merged: Bytes)
    requires Goes(sys, g, w) && g.workers[w].phase == Merging && g.workers[w].download < |g.objects|
    requires MergeWorks(sys, g, w, merged)
    ensures var id, file := g.workers[w].download, g.workers[w].file;
            Next(sys, g, MergeEnds(w, false, saved, true)) ==
            g.(objects := g.objects[id := g.objects[id].(status := Completed)], disk := g.disk - {file},
               outputs := g.outputs[file := merged], workers := Moved(g, w, Ended))
  {
    GoingWorkersRun(sys, g, w);
  }

  lemma FailingTakes(g: State, w: nat, saved: bool)
    requires UsesItsFile(g, w)
    ensures var id := g.workers[w].download;
            var d := g.objects[id].(status := Failed);
            MergeFailed(g, w, saved) ==
            g.(objects := g.objects[id := d], disk := Written(g.disk, d, saved),
               outputs := g.outputs - {g.workers[w].file}, workers := Moved(g, w, Ended))
  {
  }

  lemma CompletingTakes(g: State, w: nat, saved: bool)
    requires UsesItsFile(g, w)
    ensures var id := g.workers[w].download;
            var d := g.objects[id].(status := Completed);
            Save(SetStatus(g, id, Completed), id, saved) ==
            g.(objects := g.objects[id := d], disk := Written(g.disk, d, saved))
  {
  }

  /** One that raises, or whose pipeline reports an error, marks the download failed, saves that,
      and leaves no output. */
  lemma FailedMergeEnds(sys: System, g: State, w: nat, raises: bool, saved: bool, unlinks: bool)
    requires Goes(sys, g, w) && g.workers[w].phase == Merging && g.workers[w].download < |g.objects|
    requires raises || forall merged :: !MergeWorks(sys, g, w, merged)
    ensures var id, file := g.workers[w].download, g.workers[w].file;
            var d := g.objects[id].(status := Failed);
            Next(sys, g, MergeEnds(w, raises, saved, unlinks)) ==
            g.(objects := g.objects[id := d], disk := Written(g.disk, d, saved), outputs := g.outputs - {file},
               workers := Moved(g, w, Ended))
  {
    GoingWorkersRun(sys, g, w);
    var r := Pipeline.PipelineMerged(sys.suite, g.store, sys.manifest(g.workers[w].file),
                                     g.objects[g.workers[w].download].password);
    if !raises && r.error.None? && r.file.Some? {
      assert r == Chunker.DiskOutcome(None, Some(r.file.value));
      assert MergeWorks(sys, g, w, r.file.value);
    }
    assert Next(sys, g, MergeEnds(w, raises, saved, unlinks)) == MergeFailed(g, w, saved);
    FailingTakes(g, w, saved);
  }

  /** A resume file that cannot be removed turns a merge that worked into a failed one. */
  lemma UnremovableResumeFileFails(sys: System, g: State, w: nat, saved: bool, merged: Bytes)
    requires Goes(sys, g, w) && g.workers[w].phase == Merging && g.workers[w].download < |g.objects|
    requires MergeWorks(sys, g, w, merged)
    ensures var id, file := g.workers[w].download, g.workers[w].file;
            var d := g.objects[id].(status := Failed);
            Next(sys, g, MergeEnds(w, false, saved, false)) ==
            if saved || file in g.disk then
              g.(objects := g.objects[id := d], disk := Written(g.disk, d, saved), outputs := g.outputs - {file},
                 workers := Moved(g, w, Ended))
            else
              g.(objects := g.objects[id := g.objects[id].(status := Completed)],
                 outputs := g.outputs[file := merged], workers := Moved(g, w, Ended))
  {
    GoingWorkersRun(sys, g, w);
    var h := Save(SetStatus(g, g.workers[w].download, Completed), g.workers[w].download, saved);
    CompletingTakes(g, w, saved);
    assert Next(sys, g, MergeEnds(w, false, saved, false)) == MergeDone(g, w, merged, saved, false);
    if saved || g.workers[w].file in g.disk {
      FailingTakes(g, w, saved);
      FailingAfterCompleting(g, h, w, saved);
    } else {
      assert g.disk - {g.workers[w].file} == g.disk;
    }
  }

  lemma FailingAfterCompleting(g: State, h: State, w: nat, saved: bool)
    requires UsesItsFile(g, w)
    requires var id := g.workers[w].download;
             var d := g.objects[id].(status := Completed);
             h == g.(objects := g.objects[id := d], disk := Written(g.disk, d, saved))
    ensures UsesItsFile(h, w) && MergeFailed(h, w, saved) == MergeFailed(g, w, saved)
  {
    var id := g.workers[w].download;
    FailingTakes(g, w, saved);
    FailingTakes(h, w, saved);
    assert h.objects[id := h.objects[id].(status := Failed)] == g.objects[id := g.objects[id].(status := Failed)];
  }

  /** A cancelled worker that had begun marks its download paused and saves it; one that had not
      ends without a trace. */
  lemma CancelledWorkerEnds(sys: System, g: State, w: nat, saved: bool)
    requires Safe(sys, g) && w < |g.workers| && g.workers[w].phase != Ended && g.workers[w].cancelled
    ensures g.workers[w].download < |g.objects|
    ensures var id := g.workers[w].download;
            var d := g.objects[id].(status := Paused);
            Next(sys, g, Cancelled(w, saved)) ==
            if g.workers[w].phase == Created then g.(workers := Moved(g, w, Ended))
            else g.(objects := g.objects[id := d], disk := Written(g.disk, d, saved), workers := Moved(g, w, Ended))
  {
    WorkersUseTheirFile(sys, g, w);
  }

  /** Chunks that arrive otherwise are stored unless they are there. */
  lemma ArrivalIsStored(sys: System, g: State, chunkHash: Bytes, data: Bytes)
    ensures Next(sys, g, ChunkArrives(chunkHash, data)) ==
            g.(store := if chunkHash in g.store then g.store else g.store[chunkHash := data])
  {
  }

  /** The chunks of a work list that loaded. */
  function Arrivals(w: nat, todo: seq<Chunker.ChunkInfo>, load: Bytes -> Option<Bytes>, n: nat): seq<Step>
    requires n <= |todo| && forall i :: 0 <= i < n ==> load(todo[i].chunkHash).Some?
  {
    seq(n, i requires 0 <= i < n => FetchOk(w, load(todo[i].chunkHash).value, true))
  }

  /** An undisturbed worker receives the chunks of its list in order up to the first that fails to
      load, and merges if and only if none does. */
  lemma {:induction false} UndisturbedWorker(w: nat, todo: seq<Chunker.ChunkInfo>, load: Bytes -> Option<Bytes>, n: nat)
    requires n <= |todo| && forall i :: 0 <= i < n ==> load(todo[i].chunkHash).Some?
    requires n < |todo| ==> load(todo[n].chunkHash).None?
    ensures Outcomes(w, todo, load) ==
            Arrivals(w, todo, load, n) +
            (if n < |todo| then [FetchFails(w, true)] else [MergeEnds(w, false, true, true)])
    decreases n
  {
    if n > 0 {
      UndisturbedWorker(w, todo[1..], load, n - 1);
      assert Arrivals(w, todo, load, n) ==
             [FetchOk(w, load(todo[0].chunkHash).value, true)] + Arrivals(w, todo[1..], load, n - 1);
    }
  }

  // ---- Restart ----

  /** After a restart each resume file is a paused download with the lists in that file, nothing
      else is tracked, and no worker, pause or task is left. */
  lemma RestartRecovers(sys: System, g: State, listing: seq<Bytes>, file: Bytes)
    requires Safe(sys, g) && ListsResumeFiles(g, listing)
    ensures var h := Next(sys, g, Crash(listing));
            && h.workers == [] && h.pauses == [] && h.tasks == map[]
            && h.disk == g.disk && h.store == g.store && h.outputs == g.outputs && h.fetched == g.fetched
            && (file in h.downloads <==> file in g.disk)
            && (file in g.disk ==> Tracked(h, file) && h.objects[h.downloads[file]] == g.disk[file].(status := Paused))
  {
    RecoverTracks(sys, g.(workers := [], pauses := [], downloads := map[], tasks := map[]), listing, file);
    RecoverKeepsTasks(g.(workers := [], pauses := [], downloads := map[], tasks := map[]), listing);
  }

  lemma {:induction false} RecoverKeepsTasks(g: State, listing: seq<Bytes>)
    ensures Recover(g, listing).tasks == g.tasks
    decreases |listing|
  {
    if listing != [] {
      if listing[0] in g.disk {
        var d := g.disk[listing[0]].(status := Paused);
        RecoverKeepsTasks(Track(g, d.file, |g.objects|, d), listing[1..]);
      } else {
        RecoverKeepsTasks(g, listing[1..]);
      }
    }
  }
}
