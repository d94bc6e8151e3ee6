/** What a crash can lose while control calls do not launch a worker under a pause in progress and
    resume files can be written: the list on disk is a prefix of the one in memory, short by at most
    the chunks received since the last flush. */
module DownloadLoss {
  import opened Primitives
  import opened Sorting
  import opened Downloads
  import opened DownloadSafety
  import opened DownloadLocality
  import opened DownloadControl
  import Chunker
  import Pipeline

  /** Every write of a resume file succeeds. */
  predicate Durable(step: Step) {
    match step
    case Start(_, _, saved) => saved
    case PauseBegin(_, saved) => saved
    case PauseEnd(_, saved) => saved
    case Begin(_, saved) => saved
    case FetchOk(_, _, saved) => saved
    case FetchFails(_, saved) => saved
    case MergeEnds(_, _, saved, _) => saved
    case Cancelled(_, saved) => saved
    case Resume(_, _, _) => true
    case PauseTimeout(_) => true
    case ClearCompleted => true
    case ChunkArrives(_, _) => true
    case Crash(_) => true
  }

  /** The resume file lists a prefix of what the object completed, short by at most n. */
  ghost predicate Behind(disk: map<Bytes, Download>, d: Download, n: nat) {
    var behind :=
      && d.file in disk
      && disk[d.file].completed <= d.completed
      && |d.completed| <= |disk[d.file].completed| + n;
    behind
  }

  ghost predicate FetchingNow(g: State, file: Bytes) {
    file in g.tasks && g.tasks[file] < |g.workers| && g.workers[g.tasks[file]].phase.Fetching?
  }

  ghost predicate BackedUp(sys: System, g: State, file: Bytes) {
    var backed := Tracked(g, file) ==>
      var d := g.objects[g.downloads[file]];
      if FetchingNow(g, file) then Behind(g.disk, d, g.workers[g.tasks[file]].phase.sinceFlush)
      else NothingLeft(sys, d) || Behind(g.disk, d, if PausePending(g, file) then FLUSH_INTERVAL - 1 else 0);
    backed
  }

  lemma BackedUpFrame(sys: System, g: State, h: State, file: Bytes)
    requires Safe(sys, g) && BackedUp(sys, g, file) && SameFor(g, h, file)
    ensures BackedUp(sys, h, file)
  {
    PendingFrame(g, h, file);
  }

  // ---- Worker steps ----

  /** A worker step that keeps the resume file close enough. */
  lemma BackedUpAfterTouch(sys: System, g: State, h: State, w: nat)
    requires Touches(g, h, w) && UsesItsFile(g, w) && OrderlyWorker(g, w)
    requires var d := h.objects[g.workers[w].download];
             if h.workers[w].phase.Fetching? then Behind(h.disk, d, h.workers[w].phase.sinceFlush)
             else NothingLeft(sys, d) ||
                  Behind(h.disk, d, if PausePending(g, g.workers[w].file) then FLUSH_INTERVAL - 1 else 0)
    ensures BackedUp(sys, h, g.workers[w].file)
  {
    PendingAfterTouch(g, h, g.workers[w].file);
  }

  lemma SavedIsCurrent(g: State, id: nat)
    requires id < |g.objects|
    ensures Behind(Save(g, id, true).disk, g.objects[id], 0)
  {
  }

  /** The worker either saves and merges, is stopped by its pause, or goes on fetching. */
  lemma AdvanceBacksUp(sys: System, g: State, w: nat, todo: seq<Chunker.ChunkInfo>, sinceFlush: nat)
    requires Live(g, w) && sinceFlush < FLUSH_INTERVAL
    requires todo != [] ==> Behind(g.disk, g.objects[g.workers[w].download], sinceFlush)
    ensures var h := Advance(g, w, todo, sinceFlush, true);
            && |h.workers| == |g.workers| && h.objects == g.objects
            && Behind(h.disk, g.objects[g.workers[w].download],
                      if h.workers[w].phase.Fetching? then h.workers[w].phase.sinceFlush
                      else if h.workers[w].phase == Ended then FLUSH_INTERVAL - 1 else 0)
            && (h.workers[w].phase == Ended ==> g.workers[w].signalled)
  {
    AdvanceOutcome(g, w, todo, sinceFlush, true);
    SavedIsCurrent(g, g.workers[w].download);
  }

  lemma ReceiveBacksUp(g: State, w: nat, data: Bytes)
    requires Live(g, w) && g.workers[w].phase.Fetching? && g.workers[w].phase.todo != []
    requires Behind(g.disk, g.objects[g.workers[w].download], g.workers[w].phase.sinceFlush)
    ensures var h := Receive(g, w, data, true);
            var n := g.workers[w].phase.sinceFlush + 1;
            && |h.objects| == |g.objects|
            && Behind(h.disk, h.objects[g.workers[w].download], if n >= FLUSH_INTERVAL then 0 else n)
  {
    var id, c := g.workers[w].download, g.workers[w].phase.todo[0];
    SavedIsCurrent(g.(objects := g.objects[id := MarkCompleted(g.objects[id], c.index)]), id);
  }

  lemma FetchOkBacksUp(sys: System, g: State, w: nat, data: Bytes)
    requires UsesItsFile(g, w) && OrderlyWorker(g, w) && BackedUp(sys, g, g.workers[w].file)
    requires g.workers[w].phase.Fetching? && g.workers[w].phase.todo != []
    ensures BackedUp(sys, AfterFetchOk(g, w, data, true), g.workers[w].file)
  {
    var h := AfterFetchOk(g, w, data, true);
    var phase := g.workers[w].phase;
    FetchOkTouches(g, w, data, true);
    ReceiveOutcome(g, w, data, true);
    ReceiveBacksUp(g, w, data);
    AdvanceBacksUp(sys, Receive(g, w, data, true), w, phase.todo[1..],
                   if phase.sinceFlush + 1 >= FLUSH_INTERVAL then 0 else phase.sinceFlush + 1);
    BackedUpAfterTouch(sys, g, h, w);
  }

  lemma NoPauseUnlessSignalled(sys: System, g: State, w: nat)
    requires w < |g.workers| && Orderly(sys, g, g.workers[w].file) && OrderlyWorker(g, w)
    requires g.workers[w].phase != Ended && !g.workers[w].signalled
    ensures !PausePending(g, g.workers[w].file)
  {
    if k :| 0 <= k < |g.pauses| && g.pauses[k].file == g.workers[w].file && !g.pauses[k].returned {
      PauseIsCurrent(sys, g, k);
    }
  }

  lemma BeginBacksUp(sys: System, g: State, w: nat)
    requires Safe(sys, g) && Live(g, w) && Orderly(sys, g, g.workers[w].file) && BackedUp(sys, g, g.workers[w].file)
    requires g.workers[w].phase == Created
    ensures var h := Advance(g, w, WorkList(sys, g.objects[g.workers[w].download]), 0, true);
            BackedUp(sys, h, g.workers[w].file)
  {
    var d := g.objects[g.workers[w].download];
    var todo := WorkList(sys, d);
    WorkersUseTheirFile(sys, g, w);
    LiveWorkerIsCurrent(sys, g, w);
    AdvanceTouches(g, w, todo, 0, true);
    if todo != [] && !g.workers[w].signalled {
      SomethingIsLeft(sys, g, w);
      NoPauseUnlessSignalled(sys, g, w);
    }
    if todo == [] || !g.workers[w].signalled {
      AdvanceBacksUp(sys, g, w, todo, 0);
    }
    BackedUpAfterTouch(sys, g, Advance(g, w, todo, 0, true), w);
  }

  lemma SomethingIsLeft(sys: System, g: State, w: nat)
    requires Safe(sys, g) && Live(g, w) && WorkList(sys, g.objects[g.workers[w].download]) != []
    ensures !NothingLeft(sys, g.objects[g.workers[w].download])
  {
    var d := g.objects[g.workers[w].download];
    ObjectIsOk(sys, g, g.workers[w].download);
    WorkListIsOk(sys, d);
    var c := WorkList(sys, d)[0];
    assert c in WorkList(sys, d);
    assert Listed(sys.manifest(d.file).chunks, c.index);
  }

  lemma FetchFailsBacksUp(sys: System, g: State, w: nat)
    requires UsesItsFile(g, w) && OrderlyWorker(g, w)
    ensures BackedUp(sys, AfterFetchFails(g, w, true), g.workers[w].file)
  {
    FetchFailsTouches(g, w, true);
    SavedIsCurrent(g, g.workers[w].download);
    BackedUpAfterTouch(sys, g, AfterFetchFails(g, w, true), w);
  }

  lemma CancelledBacksUp(sys: System, g: State, w: nat)
    requires UsesItsFile(g, w) && OrderlyWorker(g, w) && BackedUp(sys, g, g.workers[w].file)
    ensures BackedUp(sys, AfterCancelled(g, w, true), g.workers[w].file)
  {
    CancelledTouches(g, w, true);
    SavedIsCurrent(SetStatus(g, g.workers[w].download, Paused), g.workers[w].download);
    BackedUpAfterTouch(sys, g, AfterCancelled(g, w, true), w);
  }

  /** A completed download drops its resume file, but has nothing left to fetch. */
  lemma MergeBacksUp(sys: System, g: State, w: nat, raises: bool, unlinks: bool)
    requires Safe(sys, g) && Live(g, w) && OrderlyWorker(g, w) && g.workers[w].phase == Merging
    ensures BackedUp(sys, AfterMerge(sys, g, w, raises, true, unlinks), g.workers[w].file)
  {
    var id := g.workers[w].download;
    WorkersUseTheirFile(sys, g, w);
    WorkerIsOk(sys, g, w);
    MergeTouches(sys, g, w, raises, true, unlinks);
    MergeOutcome(sys, g, w, raises, true, unlinks);
    BackedUpAfterTouch(sys, g, AfterMerge(sys, g, w, raises, true, unlinks), w);
  }

  lemma FetchingBacksUp(sys: System, g: State, step: Step)
    requires step.Begin? || step.FetchOk?
    requires Safe(sys, g) && Live(g, step.worker) && Durable(step)
    requires Orderly(sys, g, g.workers[step.worker].file) && BackedUp(sys, g, g.workers[step.worker].file)
    ensures BackedUp(sys, Next(sys, g, step), g.workers[step.worker].file)
  {
    WorkersUseTheirFile(sys, g, step.worker);
    LiveWorkerIsCurrent(sys, g, step.worker);
    match step
    case Begin(w, _) => if g.workers[w].phase == Created { BeginBacksUp(sys, g, w); }
    case FetchOk(w, data, _) =>
      if g.workers[w].phase.Fetching? && g.workers[w].phase.todo != [] { FetchOkBacksUp(sys, g, w, data); }
  }

  lemma EndingBacksUp(sys: System, g: State, step: Step)
    requires step.FetchFails? || step.MergeEnds? || step.Cancelled?
    requires Safe(sys, g) && Live(g, step.worker) && Durable(step)
    requires Orderly(sys, g, g.workers[step.worker].file) && BackedUp(sys, g, g.workers[step.worker].file)
    ensures BackedUp(sys, Next(sys, g, step), g.workers[step.worker].file)
  {
    WorkersUseTheirFile(sys, g, step.worker);
    LiveWorkerIsCurrent(sys, g, step.worker);
    match step
    case FetchFails(w, _) => FetchFailsBacksUp(sys, g, w);
    case MergeEnds(w, raises, _, unlinks) =>
      if g.workers[w].phase == Merging { MergeBacksUp(sys, g, w, raises, unlinks); }
    case Cancelled(w, _) => CancelledBacksUp(sys, g, w);
  }

  // ---- Control calls ----

  lemma NotFetching(sys: System, g: State, file: Bytes)
    requires Safe(sys, g) && Orderly(sys, g, file) && Tracked(g, file) &&
             g.objects[g.downloads[file]].status != Downloading
    ensures !FetchingNow(g, file)
  {
    if file in g.tasks {
      NoLiveWorker(sys, g, file, g.tasks[file]);
    }
  }

  lemma LaunchBacksUp(sys: System, g: State, file: Bytes, id: nat, d: Download)
    requires id <= |g.objects| && d.file == file
    ensures BackedUp(sys, Launch(Save(Track(g, file, id, d), id, true), file, id), file)
  {
    SavedIsCurrent(Track(g, file, id, d), id);
  }

  lemma StartBacksUp(sys: System, g: State, file: Bytes, password: Bytes)
    requires Safe(sys, g) && BackedUp(sys, g, file)
    ensures BackedUp(sys, AfterStart(sys, g, file, password, true), file)
  {
    ReferencesOf(sys, g, file);
    var existing := Existing(g, file);
    if existing.Some? && existing.value.status == Downloading {
    } else if existing.Some? && existing.value.missing != [] {
      LaunchBacksUp(sys, g, file, Slot(g, file), existing.value.(status := Downloading, password := password));
    } else {
      LaunchBacksUp(sys, g, file, |g.objects|, FreshDownload(sys, file, password));
    }
  }

  /** Resuming does not save: the resume file was already current. */
  lemma ResumeBacksUp(sys: System, g: State, file: Bytes, password: Bytes, known: bool)
    requires Safe(sys, g) && Orderly(sys, g, file) && Calm(g, Resume(file, password, known)) && BackedUp(sys, g, file)
    ensures BackedUp(sys, AfterResume(g, file, password, known), file)
  {
    ReferencesOf(sys, g, file);
    var existing := Existing(g, file);
    if existing.Some? && existing.value.status != Downloading && known {
      var h := AfterResume(g, file, password, known);
      PendingAfterTouch(g, h, file);
      if Tracked(g, file) {
        NotFetching(sys, g, file);
      }
    }
  }

  lemma PauseBeginBacksUp(sys: System, g: State, file: Bytes)
    requires Safe(sys, g) && Orderly(sys, g, file) && BackedUp(sys, g, file)
    ensures BackedUp(sys, AfterPauseBegin(g, file, true), file)
  {
    if Tracked(g, file) && g.objects[g.downloads[file]].status == Downloading {
      var id, w := g.downloads[file], g.tasks[file];
      ReferencesOf(sys, g, file);
      if g.workers[w].phase == Ended {
        SavedIsCurrent(SetStatus(g, id, Paused), id);
      } else {
        var h := AfterPauseBegin(g, file, true);
        assert h == g.(workers := g.workers[w := g.workers[w].(signalled := true)],
                       pauses := g.pauses + [Pause(file, id, w, false)]);
        assert h.pauses[|g.pauses|] == Pause(file, id, w, false);
      }
    }
  }

  lemma PauseTimeoutBacksUp(sys: System, g: State, k: nat)
    requires Waiting(g, k) && BackedUp(sys, g, g.pauses[k].file)
    ensures BackedUp(sys, AfterPauseTimeout(g, k), g.pauses[k].file)
  {
    PendingAfterTouch(g, AfterPauseTimeout(g, k), g.pauses[k].file);
  }

  lemma PauseEndBacksUp(sys: System, g: State, k: nat)
    requires Safe(sys, g) && Waiting(g, k) && Orderly(sys, g, g.pauses[k].file)
    ensures BackedUp(sys, AfterPauseEnd(g, k, true), g.pauses[k].file)
  {
    PausesUseTheirFile(sys, g, k);
    PauseIsCurrent(sys, g, k);
    SavedIsCurrent(SetStatus(g, g.pauses[k].download, Paused), g.pauses[k].download);
  }

  lemma CrashBacksUp(sys: System, g: State, listing: seq<Bytes>, file: Bytes)
    requires Safe(sys, g) && ListsResumeFiles(g, listing)
    ensures BackedUp(sys, AfterCrash(g, listing), file)
  {
    var h := g.(workers := [], pauses := [], downloads := map[], tasks := map[]);
    RecoverTracks(sys, h, listing, file);
    RecoverLaunchesNothing(h, listing);
    if file in g.disk {
      ResumeFileIsOk(sys, g, file);
    }
  }

  lemma {:induction false} RecoverLaunchesNothing(g: State, listing: seq<Bytes>)
    ensures Recover(g, listing).tasks == g.tasks
    decreases |listing|
  {
    if listing != [] {
      if listing[0] in g.disk {
        var d := g.disk[listing[0]].(status := Paused);
        RecoverLaunchesNothing(Track(g, d.file, |g.objects|, d), listing[1..]);
      } else {
        RecoverLaunchesNothing(g, listing[1..]);
      }
    }
  }

  lemma ClearBacksUp(sys: System, g: State, file: Bytes)
    requires BackedUp(sys, g, file)
    ensures BackedUp(sys, AfterClear(g), file)
  {
    PendingAfterTouch(g, AfterClear(g), file);
  }

  lemma StepBacksUp(sys: System, g: State, step: Step, file: Bytes)
    requires Safe(sys, g) && Orderly(sys, g, file) && BackedUp(sys, g, file) && Calm(g, step) && Durable(step)
    ensures BackedUp(sys, Next(sys, g, step), file)
  {
    if step.Crash? {
      if ListsResumeFiles(g, step.listing) {
        CrashBacksUp(sys, g, step.listing, file);
      }
    } else if step.ClearCompleted? {
      ClearBacksUp(sys, g, file);
    } else if StepFile(g, step) != Some(file) {
      StepsAreLocal(sys, g, step, file);
      BackedUpFrame(sys, g, Next(sys, g, step), file);
    } else if step.Start? {
      StartBacksUp(sys, g, file, step.password);
    } else if step.Resume? {
      ResumeBacksUp(sys, g, file, step.password, step.manifestKnown);
    } else if step.PauseBegin? {
      PauseBeginBacksUp(sys, g, file);
    } else if step.PauseTimeout? {
      if Waiting(g, step.pause) {
        PauseTimeoutBacksUp(sys, g, step.pause);
      }
    } else if step.PauseEnd? {
      if Waiting(g, step.pause) {
        PauseEndBacksUp(sys, g, step.pause);
      }
    } else if Live(g, step.worker) {
      if step.Begin? || step.FetchOk? {
        FetchingBacksUp(sys, g, step);
      } else {
        EndingBacksUp(sys, g, step);
      }
    }
  }

  // ---- Runs ----

  ghost predicate DurableRun(steps: seq<Step>) {
    forall i :: 0 <= i < |steps| ==> Durable(steps[i])
  }

  ghost predicate AllBackedUp(sys: System, g: State) {
    AllOrderly(sys, g) && forall file {:trigger BackedUp(sys, g, file)} :: BackedUp(sys, g, file)
  }

  lemma {:induction false} DurableRunsBackUp(sys: System, g: State, steps: seq<Step>)
    requires AllBackedUp(sys, g) && CalmRun(sys, g, steps) && DurableRun(steps)
    ensures AllBackedUp(sys, Run(sys, g, steps))
    decreases |steps|
  {
    if steps != [] {
      var step := steps[0];
      StepIsSafe(sys, g, step);
      forall file
        ensures Orderly(sys, Next(sys, g, step), file) && BackedUp(sys, Next(sys, g, step), file)
      {
        assert Orderly(sys, g, file) && BackedUp(sys, g, file);
        StepIsOrderly(sys, g, step, file);
        StepBacksUp(sys, g, step, file);
      }
      DurableRunsBackUp(sys, Next(sys, g, steps[0]), steps[1..]);
    }
  }

  /** While a worker fetches, a crash and the recovery after it keep all completed chunks but at
      most the last nine, as a paused download. */
  lemma CrashRepeatsAtMostNineChunks(sys: System, store: Pipeline.Store, steps: seq<Step>, w: nat, listing: seq<Bytes>)
    requires CalmRun(sys, Init(store), steps) && DurableRun(steps)
    requires var g := Run(sys, Init(store), steps);
             w < |g.workers| && g.workers[w].phase.Fetching? && ListsResumeFiles(g, listing)
    ensures var g := Run(sys, Init(store), steps);
            var h := Next(sys, g, Crash(listing));
            var file := g.workers[w].file;
            && g.workers[w].download < |g.objects| && Tracked(h, file)
            && var before := g.objects[g.workers[w].download];
            var after := h.objects[h.downloads[file]];
            && after.status == Paused
            && after.completed <= before.completed
            && |before.completed| - |after.completed| <= FLUSH_INTERVAL - 1
            && (forall i :: i in after.missing <==> 0 <= i < before.total && i !in after.completed)
  {
    var g := Run(sys, Init(store), steps);
    DurableRunsBackUp(sys, Init(store), steps);
    FetchingIsBackedUp(sys, g, w);
    CrashKeepsWhatIsOnDisk(sys, g, listing, g.objects[g.workers[w].download], FLUSH_INTERVAL - 1);
  }

  lemma FetchingIsBackedUp(sys: System, g: State, w: nat)
    requires AllBackedUp(sys, g) && w < |g.workers| && g.workers[w].phase.Fetching?
    ensures g.workers[w].download < |g.objects|
    ensures var d := g.objects[g.workers[w].download];
            d.file == g.workers[w].file && DownloadOk(sys, g.store, g.fetched, d) &&
              Behind(g.disk, d, FLUSH_INTERVAL - 1)
  {
    assert Orderly(sys, g, g.workers[w].file) && BackedUp(sys, g, g.workers[w].file);
    LiveWorkerIsCurrent(sys, g, w);
    WorkersUseTheirFile(sys, g, w);
    WorkerIsOk(sys, g, w);
    ObjectIsOk(sys, g, g.workers[w].download);
  }

  lemma CrashKeepsWhatIsOnDisk(sys: System, g: State, listing: seq<Bytes>, before: Download, n: nat)
    requires Safe(sys, g) && ListsResumeFiles(g, listing) && DownloadOk(sys, g.store, g.fetched, before) &&
             Behind(g.disk, before, n)
    ensures var h := Next(sys, g, Crash(listing));
            && Tracked(h, before.file)
            && var after := h.objects[h.downloads[before.file]];
            && after.status == Paused
            && after.completed <= before.completed
            && |before.completed| - |after.completed| <= n
            && (forall i :: i in after.missing <==> 0 <= i < before.total && i !in after.completed)
  {
    assert before.file in listing;
    ResumeFileIsOk(sys, g, before.file);
    RecoverTracks(sys, g.(workers := [], pauses := [], downloads := map[], tasks := map[]), listing, before.file);
  }
}
