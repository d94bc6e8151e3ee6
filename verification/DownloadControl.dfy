/** Downloads that are not started again while one of their pauses is in progress: one worker per
    file, and a status that tells the truth. */
module DownloadControl {
  import opened Primitives
  import opened Sorting
  import opened Downloads
  import opened DownloadSafety
  import opened DownloadLocality
  import Chunker
  import Pipeline

  ghost predicate PausePending(g: State, file: Bytes) {
    exists k :: 0 <= k < |g.pauses| && g.pauses[k].file == file && !g.pauses[k].returned
  }

  /** A start or resume call that finds nothing running and launches a worker. */
  predicate Launches(g: State, step: Step) {
    match step
    case Start(file, _, _) => Existing(g, file).None? || Existing(g, file).value.status != Downloading
    case Resume(file, _, known) => known && Existing(g, file).Some? && Existing(g, file).value.status != Downloading
    case _ => false
  }

  /** No worker is launched for a file while a pause of that file is in progress. */
  ghost predicate Calm(g: State, step: Step) {
    Launches(g, step) ==> !PausePending(g, step.file)
  }

  ghost predicate CalmRun(sys: System, g: State, steps: seq<Step>)
    decreases |steps|
  {
    steps == [] || (Calm(g, steps[0]) && CalmRun(sys, Next(sys, g, steps[0]), steps[1..]))
  }

  ghost predicate Merged(sys: System, g: State, file: Bytes) {
    file in g.outputs && sys.suite.hash(g.outputs[file]) == sys.manifest(file).fileHash
  }

  predicate Tracked(g: State, file: Bytes) {
    file in g.downloads && g.downloads[file] < |g.objects|
  }

  /** A live worker is its file's task, works on the tracked object, and that object says so. */
  ghost predicate OrderlyWorker(g: State, w: nat)
    requires w < |g.workers|
  {
    var worker := g.workers[w];
    worker.phase != Ended ==>
      && Tracked(g, worker.file) && g.downloads[worker.file] == worker.download
      && g.objects[worker.download].status == Downloading
      && worker.file in g.tasks && g.tasks[worker.file] == w
      && (worker.signalled || worker.cancelled ==> PausePending(g, worker.file))
  }

  /** A pause in progress waits for the file's task, unless another pause has dropped that, and
      will mark the tracked object. */
  ghost predicate OrderlyPause(g: State, k: nat)
    requires k < |g.pauses|
  {
    var p := g.pauses[k];
    !p.returned ==>
      && p.worker < |g.workers| && g.workers[p.worker].signalled
      && (p.file in g.downloads ==> g.downloads[p.file] == p.download)
      && (p.file in g.downloads && p.file in g.tasks ==> g.tasks[p.file] == p.worker)
  }

  ghost predicate OrderlyEntry(sys: System, g: State, file: Bytes) {
    Tracked(g, file) ==>
      && (g.objects[g.downloads[file]].status == Downloading ==>
            && file in g.tasks && g.tasks[file] < |g.workers|
            && (g.workers[g.tasks[file]].phase != Ended || PausePending(g, file)))
      && (g.objects[g.downloads[file]].status == Completed ==> Merged(sys, g, file))
  }

  ghost predicate Orderly(sys: System, g: State, file: Bytes) {
    var orderly :=
      && (forall w {:trigger OrderlyWorker(g, w)} :: 0 <= w < |g.workers| && g.workers[w].file == file ==>
          OrderlyWorker(g, w))
      && (forall k {:trigger OrderlyPause(g, k)} :: 0 <= k < |g.pauses| && g.pauses[k].file == file ==>
          OrderlyPause(g, k))
      && OrderlyEntry(sys, g, file);
    orderly
  }

  lemma LiveWorkerIsCurrent(sys: System, g: State, w: nat)
    requires w < |g.workers| && Orderly(sys, g, g.workers[w].file)
    ensures OrderlyWorker(g, w)
  {
    assert OrderlyWorker(g, w);
  }

  lemma PauseIsCurrent(sys: System, g: State, k: nat)
    requires k < |g.pauses| && Orderly(sys, g, g.pauses[k].file)
    ensures OrderlyPause(g, k)
  {
    assert OrderlyPause(g, k);
  }

  // ---- Frame ----

  lemma PendingFrame(g: State, h: State, file: Bytes)
    requires SamePauses(g.pauses, h.pauses, file)
    ensures PausePending(g, file) <==> PausePending(h, file)
  {
    if k :| 0 <= k < |g.pauses| && g.pauses[k].file == file && !g.pauses[k].returned {
      assert h.pauses[k] == g.pauses[k];
    }
    if k :| 0 <= k < |h.pauses| && h.pauses[k].file == file && !h.pauses[k].returned {
      assert h.pauses[k] == g.pauses[k];
    }
  }

  lemma OrderlyFrame(sys: System, g: State, h: State, file: Bytes)
    requires Safe(sys, g) && Orderly(sys, g, file) && SameFor(g, h, file)
    ensures Orderly(sys, h, file)
  {
    PendingFrame(g, h, file);
    forall w | 0 <= w < |h.workers| && h.workers[w].file == file
      ensures OrderlyWorker(h, w)
    {
      assert h.workers[w] == g.workers[w];
      WorkersUseTheirFile(sys, g, w);
      LiveWorkerIsCurrent(sys, g, w);
    }
    forall k | 0 <= k < |h.pauses| && h.pauses[k].file == file
      ensures OrderlyPause(h, k)
    {
      assert h.pauses[k] == g.pauses[k];
      PausesUseTheirFile(sys, g, k);
      PauseIsCurrent(sys, g, k);
    }
  }

  // ---- Worker steps ----

  /** A worker step keeps order when a live worker's object says downloading, a worker that ends
      without a verdict is being paused, and completed means merged. */
  lemma OrderlyAfterTouch(sys: System, g: State, h: State, w: nat)
    requires Touches(g, h, w) && UsesItsFile(g, w) && Orderly(sys, g, g.workers[w].file)
    requires h.workers[w].phase != Ended ==> h.objects[g.workers[w].download].status == Downloading
    requires h.workers[w].phase == Ended && h.objects[g.workers[w].download].status == Downloading ==>
               PausePending(g, g.workers[w].file)
    requires h.objects[g.workers[w].download].status == Completed ==> Merged(sys, h, g.workers[w].file)
    ensures Orderly(sys, h, g.workers[w].file)
  {
    var file := g.workers[w].file;
    LiveWorkerIsCurrent(sys, g, w);
    PendingAfterTouch(g, h, file);
    forall v | 0 <= v < |h.workers| && h.workers[v].file == file
      ensures OrderlyWorker(h, v)
    {
      if v != w {
        LiveWorkerIsCurrent(sys, g, v);
      }
    }
    forall k | 0 <= k < |h.pauses| && h.pauses[k].file == file
      ensures OrderlyPause(h, k)
    {
      PauseIsCurrent(sys, g, k);
    }
  }

  lemma PendingAfterTouch(g: State, h: State, file: Bytes)
    requires h.pauses == g.pauses
    ensures PausePending(h, file) <==> PausePending(g, file)
  {
  }

  lemma AdvanceOutcome(g: State, w: nat, todo: seq<Chunker.ChunkInfo>, sinceFlush: nat, saved: bool)
    requires Live(g, w)
    ensures Advance(g, w, todo, sinceFlush, saved).objects == g.objects
    ensures Advance(g, w, todo, sinceFlush, saved).fetched == g.fetched
    ensures var workers := Advance(g, w, todo, sinceFlush, saved).workers;
            |workers| == |g.workers| && (workers[w].phase == Ended ==> g.workers[w].signalled)
  {
    SaveOnlyWritesDisk(g, g.workers[w].download, saved);
  }

  lemma ReceiveOutcome(g: State, w: nat, data: Bytes, saved: bool)
    requires Live(g, w) && g.workers[w].phase.Fetching? && g.workers[w].phase.todo != []
    ensures var h := Receive(g, w, data, saved);
            var id, c := g.workers[w].download, g.workers[w].phase.todo[0];
            && h.workers == g.workers
            && h.objects == g.objects[id := MarkCompleted(g.objects[id], c.index)]
            && h.fetched == g.fetched + [Fetch(id, g.workers[w].file, c.index)]
  {
  }

  lemma FetchOkOutcome(g: State, w: nat, data: Bytes, saved: bool)
    requires Live(g, w) && g.workers[w].phase.Fetching? && g.workers[w].phase.todo != []
    ensures var h := AfterFetchOk(g, w, data, saved);
            var id, c := g.workers[w].download, g.workers[w].phase.todo[0];
            && |h.workers| == |g.workers|
            && h.objects == g.objects[id := MarkCompleted(g.objects[id], c.index)]
            && h.fetched == g.fetched + [Fetch(id, g.workers[w].file, c.index)]
            && (h.workers[w].phase == Ended ==> g.workers[w].signalled)
  {
    var phase := g.workers[w].phase;
    ReceiveOutcome(g, w, data, saved);
    AdvanceOutcome(Receive(g, w, data, saved), w, phase.todo[1..],
                   if phase.sinceFlush + 1 >= FLUSH_INTERVAL then 0 else phase.sinceFlush + 1, saved);
  }

  lemma FetchingIsOrderly(sys: System, g: State, step: Step)
    requires (step.Begin? || step.FetchOk?) && UsesItsFile(g, step.worker)
    requires Orderly(sys, g, g.workers[step.worker].file)
    ensures Orderly(sys, Next(sys, g, step), g.workers[step.worker].file)
  {
    var w := step.worker;
    if Next(sys, g, step) != g {
      LiveWorkerIsCurrent(sys, g, w);
      FetchingTouches(sys, g, step);
      match step {
        case Begin(_, saved) => AdvanceOutcome(g, w, WorkList(sys, g.objects[g.workers[w].download]), 0, saved);
        case FetchOk(_, data, saved) => FetchOkOutcome(g, w, data, saved);
      }
      OrderlyAfterTouch(sys, g, Next(sys, g, step), w);
    }
  }

  lemma MergeFailedOutcome(g: State, w: nat, saved: bool)
    requires Live(g, w)
    ensures var h := MergeFailed(g, w, saved);
            && |h.objects| == |g.objects| && |h.workers| == |g.workers|
            && h.objects[g.workers[w].download] == g.objects[g.workers[w].download].(status := Failed)
            && h.workers[w].phase == Ended && h.fetched == g.fetched
  {
  }

  lemma MergeWritesTheFile(sys: System, store: Pipeline.Store, file: Bytes, password: Bytes)
    ensures var r := Pipeline.PipelineMerged(sys.suite, store, sys.manifest(file), password);
            r.error.None? && r.file.Some? ==> sys.suite.hash(r.file.value) == sys.manifest(file).fileHash
  {
  }

  ghost predicate MergeEnded(sys: System, g: State, h: State, w: nat)
    requires Live(g, w)
  {
    && |h.objects| == |g.objects| && |h.workers| == |g.workers|
    && h.workers[w].phase == Ended && h.fetched == g.fetched
    && var d := h.objects[g.workers[w].download];
    && (d.status == Failed || d.status == Completed)
    && d == g.objects[g.workers[w].download].(status := d.status)
    && (d.status == Completed ==> Merged(sys, h, g.workers[w].file))
  }

  lemma CompletedOutcome(g: State, w: nat, saved: bool)
    requires Live(g, w)
    ensures var id := g.workers[w].download;
            var h := Save(SetStatus(g, id, Completed), id, saved);
            && h.workers == g.workers && h.fetched == g.fetched && Live(h, w)
            && h.objects == g.objects[id := g.objects[id].(status := Completed)]
  {
  }

  lemma MergeDoneOutcome(sys: System, g: State, w: nat, merged: Bytes, saved: bool, unlinks: bool)
    requires Live(g, w) && sys.suite.hash(merged) == sys.manifest(g.workers[w].file).fileHash
    ensures MergeEnded(sys, g, MergeDone(g, w, merged, saved, unlinks), w)
  {
    CompletedOutcome(g, w, saved);
    MergeFailedOutcome(Save(SetStatus(g, g.workers[w].download, Completed), g.workers[w].download, saved), w, saved);
  }

  lemma MergeOutcome(sys: System, g: State, w: nat, raises: bool, saved: bool, unlinks: bool)
    requires Live(g, w)
    ensures MergeEnded(sys, g, AfterMerge(sys, g, w, raises, saved, unlinks), w)
  {
    var file, id := g.workers[w].file, g.workers[w].download;
    MergeWritesTheFile(sys, g.store, file, g.objects[id].password);
    var r := Pipeline.PipelineMerged(sys.suite, g.store, sys.manifest(file), g.objects[id].password);
    if raises || r.error.Some? || r.file.None? {
      MergeFailedOutcome(g, w, saved);
    } else {
      MergeDoneOutcome(sys, g, w, r.file.value, saved, unlinks);
    }
  }

  lemma EndingIsOrderly(sys: System, g: State, step: Step)
    requires (step.FetchFails? || step.MergeEnds? || step.Cancelled?) && UsesItsFile(g, step.worker)
    requires Orderly(sys, g, g.workers[step.worker].file)
    ensures Orderly(sys, Next(sys, g, step), g.workers[step.worker].file)
  {
    var w := step.worker;
    if Next(sys, g, step) != g {
      LiveWorkerIsCurrent(sys, g, w);
      EndingTouches(sys, g, step);
      if step.MergeEnds? {
        MergeOutcome(sys, g, w, step.raises, step.saved, step.unlinks);
      }
      OrderlyAfterTouch(sys, g, Next(sys, g, step), w);
    }
  }

  // ---- Control calls ----

  lemma NoLiveWorker(sys: System, g: State, file: Bytes, w: nat)
    requires Orderly(sys, g, file) && w < |g.workers| && g.workers[w].file == file
    requires !Tracked(g, file) || g.objects[g.downloads[file]].status != Downloading
    ensures g.workers[w].phase == Ended
  {
    LiveWorkerIsCurrent(sys, g, w);
  }

  lemma LaunchIsOrderly(sys: System, g: State, file: Bytes, id: nat, d: Download, saved: bool)
    requires Orderly(sys, g, file) && !PausePending(g, file)
    requires id <= |g.objects| && d.file == file && d.status == Downloading
    requires !Tracked(g, file) || g.objects[g.downloads[file]].status != Downloading
    ensures Orderly(sys, Launch(Save(Track(g, file, id, d), id, saved), file, id), file)
  {
    var h := Launch(Save(Track(g, file, id, d), id, saved), file, id);
    assert h.pauses == g.pauses;
    PendingAfterTouch(g, h, file);
    forall w | 0 <= w < |h.workers| && h.workers[w].file == file
      ensures OrderlyWorker(h, w)
    {
      if w < |g.workers| {
        NoLiveWorker(sys, g, file, w);
      }
    }
    forall k | 0 <= k < |h.pauses| && h.pauses[k].file == file
      ensures OrderlyPause(h, k)
    {
      assert g.pauses[k].returned;
    }
  }

  lemma StartIsOrderly(sys: System, g: State, file: Bytes, password: Bytes, saved: bool)
    requires Safe(sys, g) && Orderly(sys, g, file) && Calm(g, Start(file, password, saved))
    ensures Orderly(sys, AfterStart(sys, g, file, password, saved), file)
  {
    var existing := Existing(g, file);
    ReferencesOf(sys, g, file);
    if existing.Some? && existing.value.status == Downloading {
    } else if existing.Some? && existing.value.missing != [] {
      LaunchIsOrderly(sys, g, file, Slot(g, file), existing.value.(status := Downloading, password := password), saved);
    } else {
      LaunchIsOrderly(sys, g, file, |g.objects|, FreshDownload(sys, file, password), saved);
    }
  }

  lemma ResumeIsOrderly(sys: System, g: State, file: Bytes, password: Bytes, known: bool)
    requires Safe(sys, g) && Orderly(sys, g, file) && Calm(g, Resume(file, password, known))
    ensures Orderly(sys, AfterResume(g, file, password, known), file)
  {
    var existing := Existing(g, file);
    ReferencesOf(sys, g, file);
    if existing.Some? && existing.value.status != Downloading && known {
      LaunchIsOrderly(sys, g, file, Slot(g, file), existing.value.(status := Downloading, password := password), false);
    }
  }

  /** A call that finds its worker live waits for it. */
  lemma WaitingPauseIsOrderly(sys: System, g: State, file: Bytes)
    requires Safe(sys, g) && Orderly(sys, g, file) && Tracked(g, file)
    requires file in g.tasks && g.tasks[file] < |g.workers| && g.workers[g.tasks[file]].phase != Ended
    ensures var w := g.tasks[file];
            var p := Pause(file, g.downloads[file], w, false);
            Orderly(sys, g.(workers := g.workers[w := g.workers[w].(signalled := true)], pauses := g.pauses + [p]),
                    file)
  {
    var w := g.tasks[file];
    var p := Pause(file, g.downloads[file], w, false);
    var h := g.(workers := g.workers[w := g.workers[w].(signalled := true)], pauses := g.pauses + [p]);
    ReferencesOf(sys, g, file);
    assert h.pauses[|g.pauses|] == p;
    assert PausePending(h, file);
    forall v | 0 <= v < |h.workers| && h.workers[v].file == file
      ensures OrderlyWorker(h, v)
    {
      LiveWorkerIsCurrent(sys, g, v);
    }
    forall k | 0 <= k < |h.pauses| && h.pauses[k].file == file
      ensures OrderlyPause(h, k)
    {
      if k < |g.pauses| {
        PauseIsCurrent(sys, g, k);
      }
    }
  }

  /** One that finds it ended finishes at once, under the pauses that are still in progress. */
  lemma FinishedPauseIsOrderly(sys: System, g: State, file: Bytes, saved: bool)
    requires Safe(sys, g) && Orderly(sys, g, file) && Tracked(g, file)
    requires file in g.tasks && g.tasks[file] < |g.workers| && g.workers[g.tasks[file]].phase == Ended
    ensures var w := g.tasks[file];
            var h := g.(workers := g.workers[w := g.workers[w].(signalled := true)]);
            Orderly(sys, FinishPause(h, file, g.downloads[file], saved), file)
  {
    var w, id := g.tasks[file], g.downloads[file];
    var h := FinishPause(g.(workers := g.workers[w := g.workers[w].(signalled := true)]), file, id, saved);
    assert h.objects == g.objects[id := g.objects[id].(status := Paused)] && h.pauses == g.pauses;
    forall v | 0 <= v < |h.workers| && h.workers[v].file == file
      ensures OrderlyWorker(h, v)
    {
      LiveWorkerIsCurrent(sys, g, v);
    }
    forall k | 0 <= k < |h.pauses| && h.pauses[k].file == file
      ensures OrderlyPause(h, k)
    {
      PauseIsCurrent(sys, g, k);
    }
  }

  lemma PauseBeginIsOrderly(sys: System, g: State, file: Bytes, saved: bool)
    requires Safe(sys, g) && Orderly(sys, g, file)
    ensures Orderly(sys, AfterPauseBegin(g, file, saved), file)
  {
    if Tracked(g, file) && g.objects[g.downloads[file]].status == Downloading {
      if g.workers[g.tasks[file]].phase != Ended {
        WaitingPauseIsOrderly(sys, g, file);
      } else {
        FinishedPauseIsOrderly(sys, g, file, saved);
      }
    }
  }

  lemma PauseTimeoutIsOrderly(sys: System, g: State, k: nat)
    requires Safe(sys, g) && Waiting(g, k) && Orderly(sys, g, g.pauses[k].file)
    ensures Orderly(sys, AfterPauseTimeout(g, k), g.pauses[k].file)
  {
    var file, w := g.pauses[k].file, g.pauses[k].worker;
    if g.workers[w].phase != Ended {
      var h := AfterPauseTimeout(g, k);
      PausesUseTheirFile(sys, g, k);
      PendingAfterTouch(g, h, file);
      assert PausePending(g, file);
      forall v | 0 <= v < |h.workers| && h.workers[v].file == file
        ensures OrderlyWorker(h, v)
      {
        LiveWorkerIsCurrent(sys, g, v);
      }
      forall j | 0 <= j < |h.pauses| && h.pauses[j].file == file
        ensures OrderlyPause(h, j)
      {
        PauseIsCurrent(sys, g, j);
      }
    }
  }

  lemma PauseEndIsOrderly(sys: System, g: State, k: nat, saved: bool)
    requires Safe(sys, g) && Waiting(g, k) && Orderly(sys, g, g.pauses[k].file)
    requires g.workers[g.pauses[k].worker].phase == Ended
    ensures Orderly(sys, AfterPauseEnd(g, k, saved), g.pauses[k].file)
  {
    var p := g.pauses[k];
    var file := p.file;
    var h := AfterPauseEnd(g, k, saved);
    PausesUseTheirFile(sys, g, k);
    PauseIsCurrent(sys, g, k);
    assert h.workers == g.workers && h.downloads == g.downloads && h.pauses == g.pauses[k := p.(returned := true)];
    forall v | 0 <= v < |h.workers| && h.workers[v].file == file
      ensures OrderlyWorker(h, v)
    {
      LiveWorkerIsCurrent(sys, g, v);
    }
    forall j | 0 <= j < |h.pauses| && h.pauses[j].file == file
      ensures OrderlyPause(h, j)
    {
      if j != k {
        assert g.pauses[j] == h.pauses[j];
        PauseIsCurrent(sys, g, j);
      }
    }
    assert h.objects == g.objects[p.download := g.objects[p.download].(status := Paused)];
  }

  lemma ClearIsOrderly(sys: System, g: State, file: Bytes)
    requires Safe(sys, g) && Orderly(sys, g, file)
    ensures Orderly(sys, AfterClear(g), file)
  {
    var h := AfterClear(g);
    PendingAfterTouch(g, h, file);
    forall v | 0 <= v < |h.workers| && h.workers[v].file == file
      ensures OrderlyWorker(h, v)
    {
      LiveWorkerIsCurrent(sys, g, v);
    }
    forall j | 0 <= j < |h.pauses| && h.pauses[j].file == file
      ensures OrderlyPause(h, j)
    {
      PauseIsCurrent(sys, g, j);
    }
  }

  // ---- Crash ----

  /** Recovery tracks every resume file it finds, as paused, and leaves the rest. */
  lemma {:induction false} RecoverTracks(sys: System, g: State, listing: seq<Bytes>, file: Bytes)
    requires Safe(sys, g)
    requires forall i, j :: 0 <= i < j < |listing| ==> listing[i] != listing[j]
    ensures var h := Recover(g, listing);
            && |g.objects| <= |h.objects| && (forall k :: 0 <= k < |g.objects| ==> h.objects[k] == g.objects[k])
            && h.workers == g.workers && h.pauses == g.pauses && h.disk == g.disk && h.store == g.store
            && h.outputs == g.outputs && h.fetched == g.fetched
            && (file in listing && file in g.disk ==>
                  Tracked(h, file) && h.objects[h.downloads[file]] == g.disk[file].(status := Paused))
            && (!(file in listing && file in g.disk) ==> SameEntry(g.downloads, h.downloads, file))
    decreases |listing|
  {
    if listing != [] {
      var f := listing[0];
      assert f in listing;
      if f in g.disk {
        ResumeFileIsOk(sys, g, f);
        var d := g.disk[f].(status := Paused);
        TrackIsSafe(sys, g, f, |g.objects|, d);
        RecoverTracks(sys, Track(g, f, |g.objects|, d), listing[1..], file);
      } else {
        RecoverTracks(sys, g, listing[1..], file);
      }
      assert file in listing <==> file == f || file in listing[1..];
      assert f !in listing[1..];
    }
  }

  lemma CrashIsOrderly(sys: System, g: State, listing: seq<Bytes>, file: Bytes)
    requires Safe(sys, g) && ListsResumeFiles(g, listing)
    ensures Orderly(sys, AfterCrash(g, listing), file)
    ensures Tracked(AfterCrash(g, listing), file) ==> file in g.disk
  {
    var h := g.(workers := [], pauses := [], downloads := map[], tasks := map[]);
    RecoverTracks(sys, h, listing, file);
  }

  // ---- Runs ----

  lemma StepIsOrderly(sys: System, g: State, step: Step, file: Bytes)
    requires Safe(sys, g) && Orderly(sys, g, file) && Calm(g, step)
    ensures Orderly(sys, Next(sys, g, step), file)
  {
    if step.Crash? {
      if ListsResumeFiles(g, step.listing) {
        CrashIsOrderly(sys, g, step.listing, file);
      }
    } else if step.ClearCompleted? {
      ClearIsOrderly(sys, g, file);
    } else if StepFile(g, step) != Some(file) {
      StepsAreLocal(sys, g, step, file);
      OrderlyFrame(sys, g, Next(sys, g, step), file);
    } else if step.Start? {
      StartIsOrderly(sys, g, file, step.password, step.saved);
    } else if step.Resume? {
      ResumeIsOrderly(sys, g, file, step.password, step.manifestKnown);
    } else if step.PauseBegin? {
      PauseBeginIsOrderly(sys, g, file, step.saved);
    } else if step.PauseTimeout? {
      if Waiting(g, step.pause) {
        PauseTimeoutIsOrderly(sys, g, step.pause);
      }
    } else if step.PauseEnd? {
      if Waiting(g, step.pause) && g.workers[g.pauses[step.pause].worker].phase == Ended {
        PauseEndIsOrderly(sys, g, step.pause, step.saved);
      }
    } else if Live(g, step.worker) {
      WorkersUseTheirFile(sys, g, step.worker);
      if step.Begin? || step.FetchOk? {
        FetchingIsOrderly(sys, g, step);
      } else {
        EndingIsOrderly(sys, g, step);
      }
    }
  }

  lemma LaunchOverPauseBreaksOrder(sys: System, g: State, file: Bytes, id: nat, d: Download, saved: bool, k: nat)
    requires id <= |g.objects| && k < |g.pauses| && g.pauses[k].file == file && !g.pauses[k].returned
    requires g.pauses[k].worker < |g.workers|
    ensures !Orderly(sys, Launch(Save(Track(g, file, id, d), id, saved), file, id), file)
  {
    var h := Launch(Save(Track(g, file, id, d), id, saved), file, id);
    assert h.pauses == g.pauses && h.tasks[file] == |g.workers| && file in h.downloads;
    assert !OrderlyPause(h, k);
  }

  lemma LaunchingBreaksOrder(sys: System, g: State, step: Step)
    requires Safe(sys, g) && (step.Start? || step.Resume?) && !Calm(g, step)
    ensures !Orderly(sys, Next(sys, g, step), step.file)
  {
    var file := step.file;
    var existing := Existing(g, file);
    var k :| 0 <= k < |g.pauses| && g.pauses[k].file == file && !g.pauses[k].returned;
    PausesUseTheirFile(sys, g, k);
    if existing.Some? && (existing.value.missing != [] || step.Resume?) {
      LaunchOverPauseBreaksOrder(sys, g, file, Slot(g, file),
                                 existing.value.(status := Downloading, password := step.password),
                                 step.Start? && step.saved, k);
    } else if step.Start? {
      LaunchOverPauseBreaksOrder(sys, g, file, |g.objects|, FreshDownload(sys, file, step.password), step.saved, k);
    }
  }

  /** The calls that can launch a worker keep the file in order if and only if they do not launch
      one under a pause in progress. */
  lemma OrderNeedsCalm(sys: System, g: State, step: Step)
    requires Safe(sys, g) && (step.Start? || step.Resume?) && Orderly(sys, g, step.file)
    ensures Orderly(sys, Next(sys, g, step), step.file) <==> Calm(g, step)
  {
    if Calm(g, step) {
      StepIsOrderly(sys, g, step, step.file);
    } else {
      LaunchingBreaksOrder(sys, g, step);
    }
  }

  ghost predicate AllOrderly(sys: System, g: State) {
    Safe(sys, g) && forall file {:trigger Orderly(sys, g, file)} :: Orderly(sys, g, file)
  }

  lemma {:induction false} CalmRunsAreOrderly(sys: System, g: State, steps: seq<Step>)
    requires AllOrderly(sys, g) && CalmRun(sys, g, steps)
    ensures AllOrderly(sys, Run(sys, g, steps))
    decreases |steps|
  {
    if steps != [] {
      StepIsSafe(sys, g, steps[0]);
      forall file
        ensures Orderly(sys, Next(sys, g, steps[0]), file)
      {
        assert Orderly(sys, g, file);
        StepIsOrderly(sys, g, steps[0], file);
      }
      CalmRunsAreOrderly(sys, Next(sys, g, steps[0]), steps[1..]);
    }
  }

  lemma CalmReach(sys: System, store: Pipeline.Store, steps: seq<Step>)
    requires CalmRun(sys, Init(store), steps)
    ensures AllOrderly(sys, Run(sys, Init(store), steps))
  {
    assert AllOrderly(sys, Init(store));
    CalmRunsAreOrderly(sys, Init(store), steps);
  }

  /** At most one worker per file is ever live. */
  lemma OneWorkerPerFile(sys: System, store: Pipeline.Store, steps: seq<Step>, v: nat, w: nat)
    requires CalmRun(sys, Init(store), steps)
    requires var g := Run(sys, Init(store), steps);
             v < |g.workers| && w < |g.workers| && g.workers[v].file == g.workers[w].file &&
             g.workers[v].phase != Ended && g.workers[w].phase != Ended
    ensures v == w
  {
    var g := Run(sys, Init(store), steps);
    CalmReach(sys, store, steps);
    assert Orderly(sys, g, g.workers[v].file);
    LiveWorkerIsCurrent(sys, g, v);
    LiveWorkerIsCurrent(sys, g, w);
  }

  /** A tracked download says "downloading" exactly while its worker is live or a pause is about
      to overwrite it; "completed" means that nothing the manifest lists is missing and the
      merged file hashes to the manifest's file hash. */
  lemma StatusTellsTheTruth(sys: System, store: Pipeline.Store, steps: seq<Step>, file: Bytes)
    requires CalmRun(sys, Init(store), steps)
    requires file in Run(sys, Init(store), steps).downloads
    ensures var g := Run(sys, Init(store), steps);
            var id := g.downloads[file];
            && id < |g.objects|
            && ((exists w :: 0 <= w < |g.workers| && g.workers[w].file == file && g.workers[w].phase != Ended) ==>
                  g.objects[id].status == Downloading)
            && (g.objects[id].status == Downloading && !PausePending(g, file) ==>
                  file in g.tasks && g.tasks[file] < |g.workers| && g.workers[g.tasks[file]].phase != Ended
                  && g.workers[g.tasks[file]].download == id)
            && (g.objects[id].status == Completed ==> Merged(sys, g, file) && NothingLeft(sys, g.objects[id]))
  {
    var g := Run(sys, Init(store), steps);
    CalmReach(sys, store, steps);
    assert Orderly(sys, g, file);
    var id := g.downloads[file];
    ObjectIsOk(sys, g, id);
    if w :| 0 <= w < |g.workers| && g.workers[w].file == file && g.workers[w].phase != Ended {
      LiveWorkerIsCurrent(sys, g, w);
    }
    if g.objects[id].status == Downloading && !PausePending(g, file) {
      LiveWorkerIsCurrent(sys, g, g.tasks[file]);
    }
  }
}
