/** Where downloads end up: files that no call can start again, and calls that launch a worker
    while a pause is in progress. */
module DownloadEndings {
  import opened Primitives
  import opened Sorting
  import opened Downloads
  import opened DownloadSafety
  import opened DownloadLocality
  import opened DownloadControl
  import Pipeline

  ghost predicate HasWorker(g: State, file: Bytes) {
    exists w :: 0 <= w < |g.workers| && g.workers[w].file == file && g.workers[w].phase != Ended
  }

  /** Nothing tracks the file and nothing works on it, but its resume file says "downloading". */
  ghost predicate Stuck(g: State, file: Bytes) {
    var stuck :=
      && file !in g.downloads && file in g.disk && g.disk[file].status == Downloading
      && !HasWorker(g, file) && !PausePending(g, file);
    stuck
  }

  // ---- Stuck files ----

  lemma StuckFrame(g: State, h: State, file: Bytes)
    requires Stuck(g, file) && SameFor(g, h, file)
    ensures Stuck(h, file)
  {
    PendingFrame(g, h, file);
    forall w | 0 <= w < |h.workers| && h.workers[w].file == file
      ensures h.workers[w].phase == Ended
    {
      assert h.workers[w] == g.workers[w];
    }
  }

  lemma StepLeavesStuck(sys: System, g: State, step: Step, file: Bytes)
    requires Safe(sys, g) && Stuck(g, file) && !step.Crash?
    ensures Stuck(Next(sys, g, step), file)
  {
    if step.ClearCompleted? {
      PendingAfterTouch(g, AfterClear(g), file);
    } else if StepFile(g, step) == Some(file) {
      if step.PauseTimeout? || step.PauseEnd? {
        assert g.pauses[step.pause].returned;
      } else if !step.Start? && !step.Resume? && !step.PauseBegin? {
        assert g.workers[step.worker].phase == Ended;
      }
      assert Next(sys, g, step) == g;
    } else {
      StepsAreLocal(sys, g, step, file);
      StuckFrame(g, Next(sys, g, step), file);
    }
  }

  /** Without a restart a stuck file stays stuck, whatever is called. */
  lemma {:induction false} StuckUntilRestart(sys: System, g: State, steps: seq<Step>, file: Bytes)
    requires Safe(sys, g) && Stuck(g, file) && forall i :: 0 <= i < |steps| ==> !steps[i].Crash?
    ensures Stuck(Run(sys, g, steps), file)
    decreases |steps|
  {
    if steps != [] {
      StepIsSafe(sys, g, steps[0]);
      StepLeavesStuck(sys, g, steps[0], file);
      StuckUntilRestart(sys, Next(sys, g, steps[0]), steps[1..], file);
    }
  }

  lemma RestartFreesStuck(sys: System, g: State, listing: seq<Bytes>, file: Bytes)
    requires Safe(sys, g) && Stuck(g, file) && ListsResumeFiles(g, listing)
    ensures var h := Next(sys, g, Crash(listing));
            Tracked(h, file) && h.objects[h.downloads[file]].status == Paused && !Stuck(h, file)
  {
    RecoverTracks(sys, g.(workers := [], pauses := [], downloads := map[], tasks := map[]), listing, file);
  }

  lemma LaunchAppends(g: State, file: Bytes, id: nat, d: Download, saved: bool)
    requires id <= |g.objects|
    ensures HasWorker(Launch(Save(Track(g, file, id, d), id, saved), file, id), file)
  {
    var h := Launch(Save(Track(g, file, id, d), id, saved), file, id);
    assert h.workers[|g.workers|] == Worker(file, id, Created, false, false);
  }

  lemma LaunchedWorkerIsLive(sys: System, g: State, file: Bytes, password: Bytes, saved: bool)
    requires Existing(g, file).None? || Existing(g, file).value.status != Downloading
    ensures HasWorker(AfterStart(sys, g, file, password, saved), file)
  {
    var existing := Existing(g, file);
    if existing.Some? && existing.value.missing != [] {
      LaunchAppends(g, file, Slot(g, file), existing.value.(status := Downloading, password := password), saved);
    } else {
      LaunchAppends(g, file, |g.objects|, FreshDownload(sys, file, password), saved);
    }
  }

  /** Outside pauses, a start call leaves the file with a live worker if and only if the file is
      not stuck. */
  lemma StartWorksUnlessStuck(sys: System, g: State, file: Bytes, password: Bytes, saved: bool)
    requires Safe(sys, g) && Orderly(sys, g, file) && !PausePending(g, file)
    ensures HasWorker(Next(sys, g, Start(file, password, saved)), file) <==> !Stuck(g, file)
  {
    var existing := Existing(g, file);
    if existing.None? || existing.value.status != Downloading {
      LaunchedWorkerIsLive(sys, g, file, password, saved);
    } else {
      assert Next(sys, g, Start(file, password, saved)) == g;
      ReferencesOf(sys, g, file);
      if Tracked(g, file) {
        assert g.workers[g.tasks[file]].phase != Ended;
      } else {
        forall w | 0 <= w < |g.workers| && g.workers[w].file == file
          ensures g.workers[w].phase == Ended
        {
          NoLiveWorker(sys, g, file, w);
        }
      }
    }
  }

  /** A failed fetch followed by `clear_completed` makes a file stuck: the resume file was
      written before the status became an error. */
  lemma FailedFetchThenClearSticks(sys: System, g: State, w: nat)
    requires Safe(sys, g) && Runs(g, w) && g.workers[w].phase.Fetching?
    requires Orderly(sys, g, g.workers[w].file) && !PausePending(g, g.workers[w].file)
    ensures Stuck(Run(sys, g, [FetchFails(w, true), ClearCompleted]), g.workers[w].file)
  {
    var file, id := g.workers[w].file, g.workers[w].download;
    var h := Next(sys, g, FetchFails(w, true));
    WorkersUseTheirFile(sys, g, w);
    LiveWorkerIsCurrent(sys, g, w);
    FetchFailsTouches(g, w, true);
    PendingAfterTouch(g, h, file);
    assert h.objects[id].status == Failed && h.workers[w].phase == Ended;
    assert h.disk[file] == Persisted(g.objects[id]);
    var k := AfterClear(h);
    PendingAfterTouch(h, k, file);
    forall v | 0 <= v < |k.workers| && k.workers[v].file == file
      ensures k.workers[v].phase == Ended
    {
      LiveWorkerIsCurrent(sys, g, v);
    }
    RunTwo(sys, g, FetchFails(w, true), ClearCompleted);
  }

  lemma RunTwo(sys: System, g: State, a: Step, b: Step)
    ensures Run(sys, g, [a, b]) == Next(sys, Next(sys, g, a), b)
  {
    assert [a, b] == [a] + [b];
    RunsOne(sys, g, a, [b]);
    RunsLast(sys, Next(sys, g, a), b);
  }

  lemma RunThree(sys: System, g: State, a: Step, b: Step, c: Step)
    ensures Run(sys, g, [a, b, c]) == Next(sys, Next(sys, Next(sys, g, a), b), c)
  {
    assert [a, b, c][1..] == [b, c];
    RunTwo(sys, Next(sys, g, a), b, c);
  }

  // ---- Calls that overlap a pause ----

  lemma PauseWaits(sys: System, g: State, w: nat)
    requires Safe(sys, g) && Live(g, w) && Orderly(sys, g, g.workers[w].file)
    ensures g.objects[g.workers[w].download].file == g.workers[w].file
    ensures Tracked(g, g.workers[w].file) && g.downloads[g.workers[w].file] == g.workers[w].download
    ensures Next(sys, g, PauseBegin(g.workers[w].file, true)) ==
            g.(workers := g.workers[w := g.workers[w].(signalled := true)],
               pauses := g.pauses + [Pause(g.workers[w].file, g.workers[w].download, w, false)])
  {
    WorkersUseTheirFile(sys, g, w);
    LiveWorkerIsCurrent(sys, g, w);
  }

  /** The k-th pause is p and still in progress, its worker has ended and its download failed. */
  ghost predicate FailedUnderPause(g: State, k: nat, p: Pause) {
    var failed :=
      && Waiting(g, k) && g.pauses[k] == p && g.workers[p.worker].phase == Ended
      && Tracked(g, p.file) && g.downloads[p.file] == p.download && g.objects[p.download].status == Failed;
    failed
  }

  /** A fetch that fails while a pause waits for its worker leaves exactly such a pause. */
  lemma FailureDuringPause(sys: System, g: State, w: nat)
    requires Safe(sys, g) && Runs(g, w) && g.workers[w].phase.Fetching?
    requires Orderly(sys, g, g.workers[w].file) && !PausePending(g, g.workers[w].file)
    ensures FailedUnderPause(Run(sys, g, [PauseBegin(g.workers[w].file, true), FetchFails(w, true)]), |g.pauses|,
                             Pause(g.workers[w].file, g.workers[w].download, w, false))
  {
    var file := g.workers[w].file;
    var a := Next(sys, g, PauseBegin(file, true));
    PauseWaits(sys, g, w);
    RunTwo(sys, g, PauseBegin(file, true), FetchFails(w, true));
  }

  lemma ResumeLaunches(sys: System, g: State, file: Bytes, password: Bytes)
    requires Tracked(g, file) && g.objects[g.downloads[file]].status != Downloading
    ensures var h := Next(sys, g, Resume(file, password, true));
            && h.workers == g.workers + [Worker(file, g.downloads[file], Created, false, false)]
            && h.downloads == g.downloads && h.pauses == g.pauses && |h.objects| == |g.objects|
  {
    assert g.downloads[file := g.downloads[file]] == g.downloads;
  }

  /** While a pause of a failed worker is still in progress, resume, the end of the pause, and
      resume again leave two live workers on one file. */
  lemma OverlappingResumeDoublesTheWorker(sys: System, g: State, k: nat, password: Bytes, saved: bool)
    requires Waiting(g, k) && g.workers[g.pauses[k].worker].phase == Ended
    requires var file := g.pauses[k].file;
             Tracked(g, file) && g.downloads[file] == g.pauses[k].download
             && g.objects[g.downloads[file]].status != Downloading
    ensures var file := g.pauses[k].file;
            var h := Run(sys, g, [Resume(file, password, true), PauseEnd(k, saved), Resume(file, password, true)]);
            var n := |g.workers|;
            && |h.workers| == n + 2
            && h.workers[n] == h.workers[n + 1] == Worker(file, g.pauses[k].download, Created, false, false)
  {
    var file := g.pauses[k].file;
    var a := Next(sys, g, Resume(file, password, true));
    ResumeLaunches(sys, g, file, password);
    var b := AfterPauseEnd(a, k, saved);
    PausedEntry(a, k, saved);
    assert Next(sys, a, PauseEnd(k, saved)) == b;
    ResumeLaunches(sys, b, file, password);
    RunThree(sys, g, Resume(file, password, true), PauseEnd(k, saved), Resume(file, password, true));
  }

  lemma PausedEntry(g: State, k: nat, saved: bool)
    requires Waiting(g, k)
    ensures var h := AfterPauseEnd(g, k, saved);
            && h.workers == g.workers && h.downloads == g.downloads && |h.objects| == |g.objects|
            && h.objects[g.pauses[k].download].status == Paused
            && g.pauses[k].file !in h.tasks
            && (saved ==> g.objects[g.pauses[k].download].file in h.disk)
  {
  }

  /** The worker's file merges from this store. */
  ghost predicate Merges(sys: System, g: State, w: nat, store: Pipeline.Store)
    requires Live(g, w)
  {
    var r := Pipeline.PipelineMerged(sys.suite, store, sys.manifest(g.workers[w].file),
                                     g.objects[g.workers[w].download].password);
    r.error.None? && r.file.Some?
  }

  /** The merge of decodable chunks completes the download, drops the resume file and leaves
      the merged bytes. */
  lemma MergeSucceeds(sys: System, g: State, w: nat)
    requires Live(g, w) && g.objects[g.workers[w].download].file == g.workers[w].file
    requires Merges(sys, g, w, g.store)
    ensures var file, id := g.workers[w].file, g.workers[w].download;
            var r := Pipeline.PipelineMerged(sys.suite, g.store, sys.manifest(file), g.objects[id].password);
            var h := AfterMerge(sys, g, w, false, true, true);
            && h.objects == g.objects[id := g.objects[id].(status := Completed)]
            && h.workers == g.workers[w := g.workers[w].(phase := Ended)]
            && h.pauses == g.pauses && h.downloads == g.downloads && h.store == g.store
            && file !in h.disk && h.outputs == g.outputs[file := r.file.value] && Merged(sys, h, file)
  {
    MergeWritesTheFile(sys, g.store, g.workers[w].file, g.objects[g.workers[w].download].password);
  }
}
