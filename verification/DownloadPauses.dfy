/** A pause that overlaps the end of a download: exactly when it takes a completed download back,
    and the failures of overlapping calls as runs from the start. */
module DownloadPauses {
  import opened Primitives
  import opened Sorting
  import opened Downloads
  import opened DownloadSafety
  import opened DownloadLocality
  import opened DownloadControl
  import opened DownloadHistory
  import opened DownloadEndings
  import Chunker
  import Pipeline

  /** The worker looks at the cancel event no more: it merges, or fetches its last chunk, or will
      find nothing to fetch. */
  predicate NearlyDone(sys: System, g: State, w: nat)
    requires Live(g, w)
  {
    match g.workers[w].phase
    case Merging => true
    case Fetching(todo, _) => |todo| == 1
    case Created => WorkList(sys, g.objects[g.workers[w].download]) == []
    case Ended => false
  }

  /** The store when such a worker merges, if its last chunk arrives as `data`. */
  function LastStore(g: State, w: nat, data: Bytes): Pipeline.Store
    requires Live(g, w)
  {
    var phase := g.workers[w].phase;
    if phase.Fetching? && phase.todo != [] && phase.todo[0].chunkHash !in g.store
    then g.store[phase.todo[0].chunkHash := data]
    else g.store
  }

  function Closing(g: State, w: nat, data: Bytes): seq<Step>
    requires Live(g, w)
  {
    var merge := [MergeEnds(w, false, true, true)];
    match g.workers[w].phase
    case Created => [Begin(w, true)] + merge
    case Fetching(_, _) => [FetchOk(w, data, true)] + merge
    case _ => merge
  }

  // ---- A pause that comes too late ----

  lemma MergeBegins(sys: System, g: State, w: nat, data: Bytes)
    requires Runs(g, w) && UsesItsFile(g, w) && NearlyDone(sys, g, w)
    ensures var h := if g.workers[w].phase.Fetching? then Next(sys, g, FetchOk(w, data, true))
                     else if g.workers[w].phase == Created then Next(sys, g, Begin(w, true)) else g;
            && SameJob(g, h, w) && h.workers[w].phase == Merging && h.store == LastStore(g, w, data)
            && h.pauses == g.pauses && h.downloads == g.downloads && |h.workers| == |g.workers|
  {
    match g.workers[w].phase
    case Created =>
      AdvanceGoesOn(g, w, [], 0);
      AdvanceTouches(g, w, [], 0, true);
    case Fetching(todo, _) =>
      FetchOkGoesOn(g, w, data);
      FetchOkTouches(g, w, data, true);
    case _ =>
  }

  ghost predicate CompletedBy(sys: System, g: State, w: nat, h: State)
    requires Live(g, w)
  {
    var id, file := g.workers[w].download, g.workers[w].file;
    && id < |h.objects| && h.objects[id].status == Completed && h.objects[id].file == file
    && w < |h.workers| && h.workers[w].phase == Ended
    && h.pauses == g.pauses && h.downloads == g.downloads && Merged(sys, h, file)
  }

  lemma MergeCompletes(sys: System, g: State, w: nat)
    requires Runs(g, w) && UsesItsFile(g, w) && g.workers[w].phase == Merging && Merges(sys, g, w, g.store)
    ensures CompletedBy(sys, g, w, Run(sys, g, [MergeEnds(w, false, true, true)]))
  {
    MergeSucceeds(sys, g, w);
    RunsLast(sys, g, MergeEnds(w, false, true, true));
  }

  lemma ClosingCompletes(sys: System, g: State, w: nat, data: Bytes)
    requires Runs(g, w) && UsesItsFile(g, w) && NearlyDone(sys, g, w) && Merges(sys, g, w, LastStore(g, w, data))
    ensures CompletedBy(sys, g, w, Run(sys, g, Closing(g, w, data)))
  {
    if g.workers[w].phase == Merging {
      MergeCompletes(sys, g, w);
    } else {
      var first := if g.workers[w].phase.Fetching? then FetchOk(w, data, true) else Begin(w, true);
      var h := Next(sys, g, first);
      MergeBegins(sys, g, w, data);
      MergeCompletes(sys, h, w);
      RunsOne(sys, g, first, [MergeEnds(w, false, true, true)]);
    }
  }

  lemma ClosingIsQuiet(sys: System, g: State, w: nat, data: Bytes)
    requires Live(g, w)
    ensures CalmRun(sys, g, Closing(g, w, data))
    ensures forall n :: 0 <= n < |Closing(g, w, data)| ==>
              !Closing(g, w, data)[n].Crash? && !Closing(g, w, data)[n].PauseEnd?
  {
  }

  lemma SignalledIsNearlyDone(sys: System, g: State, w: nat, data: Bytes)
    requires Safe(sys, g) && Runs(g, w) && Orderly(sys, g, g.workers[w].file) && NearlyDone(sys, g, w)
    requires Merges(sys, g, w, LastStore(g, w, data))
    ensures var a := Next(sys, g, PauseBegin(g.workers[w].file, true));
            && Runs(a, w) && UsesItsFile(a, w) && NearlyDone(sys, a, w) && Merges(sys, a, w, LastStore(a, w, data))
            && a.workers[w] == g.workers[w].(signalled := true) && Closing(a, w, data) == Closing(g, w, data)
            && a.downloads == g.downloads
            && a.pauses == g.pauses + [Pause(g.workers[w].file, g.workers[w].download, w, false)]
  {
    PauseWaits(sys, g, w);
  }

  /** The download was completed and is now paused, with a resume file, although its output is in
      place. */
  ghost predicate TakenBack(sys: System, done: State, h: State, file: Bytes) {
    var taken :=
      && Tracked(done, file) && done.objects[done.downloads[file]].status == Completed && Merged(sys, done, file)
      && Tracked(h, file) && h.objects[h.downloads[file]].status == Paused && Merged(sys, h, file)
      && file in h.disk;
    taken
  }

  /** A pause that begins when the worker is nearly done turns the completed download back into
      a paused one, with a resume file, although the merged file is in place. */
  lemma PauseOverwritesCompleted(sys: System, g: State, w: nat, data: Bytes)
    requires Safe(sys, g) && Runs(g, w) && Orderly(sys, g, g.workers[w].file) && NearlyDone(sys, g, w)
    requires Merges(sys, g, w, LastStore(g, w, data))
    ensures var done := Run(sys, g, [PauseBegin(g.workers[w].file, true)] + Closing(g, w, data));
            TakenBack(sys, done, Next(sys, done, PauseEnd(|g.pauses|, true)), g.workers[w].file)
  {
    var file := g.workers[w].file;
    var a := Next(sys, g, PauseBegin(file, true));
    PauseWaits(sys, g, w);
    SignalledIsNearlyDone(sys, g, w, data);
    ClosingCompletes(sys, a, w, data);
    RunsOne(sys, g, PauseBegin(file, true), Closing(g, w, data));
    var done := Run(sys, a, Closing(a, w, data));
    assert done.pauses[|g.pauses|] == Pause(file, g.workers[w].download, w, false);
    assert Waiting(done, |g.pauses|);
    PausedEntry(done, |g.pauses|, true);
    assert Next(sys, done, PauseEnd(|g.pauses|, true)) == AfterPauseEnd(done, |g.pauses|, true);
  }

  // ---- A pause that comes in time ----

  /** The signalled worker still has to pass the look at the cancel event. */
  ghost predicate StopsShort(sys: System, g: State, w: nat, k: nat, p: Pause) {
    var stops :=
      && w < |g.workers| && g.workers[w].download < |g.objects| && g.workers[w].signalled
      && k < |g.pauses| && g.pauses[k] == p == Pause(g.workers[w].file, g.workers[w].download, w, false)
      && g.objects[g.workers[w].download].status != Completed
      && match g.workers[w].phase
         case Created => WorkList(sys, g.objects[g.workers[w].download]) != []
         case Fetching(todo, _) => |todo| >= 2
         case Merging => false
         case Ended => true;
    stops
  }

  lemma StopsShortFrame(sys: System, g: State, h: State, w: nat, k: nat, p: Pause)
    requires Safe(sys, g) && StopsShort(sys, g, w, k, p) && SameFor(g, h, g.workers[w].file)
    ensures StopsShort(sys, h, w, k, p) && h.workers[w] == g.workers[w]
  {
    WorkersUseTheirFile(sys, g, w);
  }

  lemma EndingStopsShort(sys: System, g: State, h: State, w: nat, k: nat, p: Pause)
    requires StopsShort(sys, g, w, k, p) && Touches(g, h, w) && h.workers[w].phase == Ended
    requires h.objects[g.workers[w].download].status != Completed
    ensures StopsShort(sys, h, w, k, p)
  {
  }

  lemma SignalledAdvanceStops(g: State, w: nat, todo: seq<Chunker.ChunkInfo>, sinceFlush: nat, saved: bool)
    requires Live(g, w) && g.workers[w].signalled && todo != []
    ensures Advance(g, w, todo, sinceFlush, saved) == SetWorker(g, w, Ended)
  {
  }

  lemma BeginStopsShort(sys: System, g: State, w: nat, k: nat, p: Pause, saved: bool)
    requires StopsShort(sys, g, w, k, p) && UsesItsFile(g, w) && g.workers[w].phase == Created
    ensures StopsShort(sys, Advance(g, w, WorkList(sys, g.objects[g.workers[w].download]), 0, saved), w, k, p)
  {
    SignalledAdvanceStops(g, w, WorkList(sys, g.objects[g.workers[w].download]), 0, saved);
  }

  lemma FetchOkStopsShort(sys: System, g: State, w: nat, k: nat, p: Pause, data: Bytes, saved: bool)
    requires StopsShort(sys, g, w, k, p) && UsesItsFile(g, w) && g.workers[w].phase.Fetching?
    ensures |g.workers[w].phase.todo| >= 2 && StopsShort(sys, AfterFetchOk(g, w, data, saved), w, k, p)
  {
    var phase := g.workers[w].phase;
    ReceiveOutcome(g, w, data, saved);
    SignalledAdvanceStops(Receive(g, w, data, saved), w, phase.todo[1..],
                          if phase.sinceFlush + 1 >= FLUSH_INTERVAL then 0 else phase.sinceFlush + 1, saved);
    FetchOkTouches(g, w, data, saved);
    EndingStopsShort(sys, g, AfterFetchOk(g, w, data, saved), w, k, p);
  }

  lemma FetchFailsStopsShort(sys: System, g: State, w: nat, k: nat, p: Pause, saved: bool)
    requires StopsShort(sys, g, w, k, p) && UsesItsFile(g, w)
    ensures StopsShort(sys, AfterFetchFails(g, w, saved), w, k, p)
  {
    FetchFailsTouches(g, w, saved);
    EndingStopsShort(sys, g, AfterFetchFails(g, w, saved), w, k, p);
  }

  lemma CancelledStopsShort(sys: System, g: State, w: nat, k: nat, p: Pause, saved: bool)
    requires StopsShort(sys, g, w, k, p) && UsesItsFile(g, w)
    ensures StopsShort(sys, AfterCancelled(g, w, saved), w, k, p)
  {
    CancelledTouches(g, w, saved);
    EndingStopsShort(sys, g, AfterCancelled(g, w, saved), w, k, p);
  }

  lemma OwnWorkerStopsShort(sys: System, g: State, w: nat, k: nat, p: Pause, step: Step)
    requires step.Begin? || step.FetchOk? || step.FetchFails? || step.MergeEnds? || step.Cancelled?
    requires step.worker == w && StopsShort(sys, g, w, k, p) && UsesItsFile(g, w)
    ensures StopsShort(sys, Next(sys, g, step), w, k, p)
  {
    match step
    case Begin(_, saved) => if g.workers[w].phase == Created { BeginStopsShort(sys, g, w, k, p, saved); }
    case FetchOk(_, data, saved) =>
      if g.workers[w].phase.Fetching? { FetchOkStopsShort(sys, g, w, k, p, data, saved); }
    case FetchFails(_, saved) => FetchFailsStopsShort(sys, g, w, k, p, saved);
    case MergeEnds(_, _, _, _) =>
    case Cancelled(_, saved) => CancelledStopsShort(sys, g, w, k, p, saved);
  }

  /** Statuses that no pause sets to completed, signals that none takes back. */
  lemma PauseStopsShort(sys: System, g: State, h: State, w: nat, k: nat, p: Pause)
    requires StopsShort(sys, g, w, k, p) && WorkStays(g, h) && k < |h.pauses| && h.pauses[k] == g.pauses[k]
    requires h.workers[w].signalled && h.objects[g.workers[w].download].status != Completed
    ensures StopsShort(sys, h, w, k, p)
  {
  }

  lemma PauseBeginStopsShort(sys: System, g: State, w: nat, k: nat, p: Pause, file: Bytes, saved: bool)
    requires StopsShort(sys, g, w, k, p)
    ensures StopsShort(sys, AfterPauseBegin(g, file, saved), w, k, p)
  {
    PauseBeginStays(g, file, saved);
    PauseBeginSets(g, file, saved, w, k, g.workers[w].download);
    PauseStopsShort(sys, g, AfterPauseBegin(g, file, saved), w, k, p);
  }

  lemma PauseBeginSets(g: State, file: Bytes, saved: bool, w: nat, k: nat, id: nat)
    requires w < |g.workers| && k < |g.pauses| && id < |g.objects| && g.objects[id].status != Completed
    ensures var h := AfterPauseBegin(g, file, saved);
            && |h.workers| == |g.workers| && |h.objects| == |g.objects|
            && k < |h.pauses| && h.pauses[k] == g.pauses[k]
            && (g.workers[w].signalled ==> h.workers[w].signalled) && h.objects[id].status != Completed
  {
    if Tracked(g, file) && g.objects[g.downloads[file]].status == Downloading {
      var own := g.downloads[file];
      if file in g.tasks && g.tasks[file] < |g.workers| {
        var v := g.tasks[file];
        FinishPauseSets(g.(workers := g.workers[v := g.workers[v].(signalled := true)]), file, own, saved, id);
      } else {
        FinishPauseSets(g, file, own, saved, id);
      }
    }
  }

  lemma FinishPauseSets(g: State, file: Bytes, own: nat, saved: bool, id: nat)
    requires own < |g.objects| && id < |g.objects| && g.objects[id].status != Completed
    ensures var h := FinishPause(g, file, own, saved);
            && h.workers == g.workers && h.pauses == g.pauses && |h.objects| == |g.objects|
            && h.objects[id].status != Completed
  {
  }

  lemma PauseEndStopsShort(sys: System, g: State, w: nat, k: nat, p: Pause, j: nat, saved: bool)
    requires StopsShort(sys, g, w, k, p) && Waiting(g, j) && j != k
    ensures StopsShort(sys, AfterPauseEnd(g, j, saved), w, k, p)
  {
    PausedWorkStays(g, AfterPauseEnd(g, j, saved), g.pauses[j].download);
    PauseStopsShort(sys, g, AfterPauseEnd(g, j, saved), w, k, p);
  }

  lemma PauseTimeoutStopsShort(sys: System, g: State, w: nat, k: nat, p: Pause, j: nat)
    requires StopsShort(sys, g, w, k, p) && Waiting(g, j)
    ensures StopsShort(sys, AfterPauseTimeout(g, j), w, k, p)
  {
    var v := g.pauses[j].worker;
    if g.workers[v].phase != Ended {
      SignalledWorkStays(g, AfterPauseTimeout(g, j), v, g.workers[v].(cancelled := true));
      PauseStopsShort(sys, g, AfterPauseTimeout(g, j), w, k, p);
    }
  }

  /** The pause does not return and the node does not restart in this step. */
  predicate Within(step: Step, k: nat) {
    !step.Crash? && !(step.PauseEnd? && step.pause == k)
  }

  lemma StepStopsShort(sys: System, g: State, step: Step, w: nat, k: nat, p: Pause)
    requires Safe(sys, g) && StopsShort(sys, g, w, k, p) && Orderly(sys, g, g.workers[w].file)
    requires Calm(g, step) && Within(step, k)
    ensures StopsShort(sys, Next(sys, g, step), w, k, p)
  {
    var file := g.workers[w].file;
    if step.ClearCompleted? {
    } else if StepFile(g, step) != Some(file) {
      StepsAreLocal(sys, g, step, file);
      StopsShortFrame(sys, g, Next(sys, g, step), w, k, p);
    } else if step.Start? || step.Resume? {
      assert Next(sys, g, step) == g;
    } else if step.PauseBegin? {
      PauseBeginStopsShort(sys, g, w, k, p, file, step.saved);
    } else if step.PauseTimeout? {
      if Waiting(g, step.pause) {
        PauseTimeoutStopsShort(sys, g, w, k, p, step.pause);
      }
    } else if step.PauseEnd? {
      if Waiting(g, step.pause) {
        PauseEndStopsShort(sys, g, w, k, p, step.pause, step.saved);
      }
    } else if Live(g, step.worker) {
      LiveWorkerIsCurrent(sys, g, step.worker);
      PauseIsCurrent(sys, g, k);
      assert step.worker == w;
      WorkersUseTheirFile(sys, g, w);
      OwnWorkerStopsShort(sys, g, w, k, p, step);
    }
  }

  lemma {:induction false} RunStopsShort(sys: System, g: State, steps: seq<Step>, w: nat, k: nat, p: Pause)
    requires Safe(sys, g) && StopsShort(sys, g, w, k, p) && Orderly(sys, g, p.file) && CalmRun(sys, g, steps)
    requires forall n :: 0 <= n < |steps| ==> Within(steps[n], k)
    ensures StopsShort(sys, Run(sys, g, steps), w, k, p)
    decreases |steps|
  {
    if steps != [] {
      var h := Next(sys, g, steps[0]);
      StepIsSafe(sys, g, steps[0]);
      StepIsOrderly(sys, g, steps[0], p.file);
      StepStopsShort(sys, g, steps[0], w, k, p);
      RunStopsShort(sys, h, steps[1..], w, k, p);
    }
  }

  // ---- Exactly when a completed download is taken back ----

  /** A calm run, after the pause call and before it returns, that completes the download. */
  ghost predicate CompletesUnderPause(sys: System, g: State, w: nat, steps: seq<Step>)
    requires Live(g, w)
  {
    var a := Next(sys, g, PauseBegin(g.workers[w].file, true));
    var h := Run(sys, a, steps);
    && CalmRun(sys, a, steps) && (forall n :: 0 <= n < |steps| ==> Within(steps[n], |g.pauses|))
    && g.workers[w].download < |h.objects| && h.objects[g.workers[w].download].status == Completed
  }

  lemma PauseInTimeStops(sys: System, g: State, w: nat, steps: seq<Step>)
    requires Safe(sys, g) && Runs(g, w) && Orderly(sys, g, g.workers[w].file) && !NearlyDone(sys, g, w)
    ensures !CompletesUnderPause(sys, g, w, steps)
  {
    var file := g.workers[w].file;
    var a := Next(sys, g, PauseBegin(file, true));
    var p := Pause(file, g.workers[w].download, w, false);
    PauseWaits(sys, g, w);
    WorkerIsOk(sys, g, w);
    LiveWorkerIsCurrent(sys, g, w);
    StepIsSafe(sys, g, PauseBegin(file, true));
    StepIsOrderly(sys, g, PauseBegin(file, true), file);
    assert a.pauses[|g.pauses|] == p;
    assert StopsShort(sys, a, w, |g.pauses|, p);
    if CalmRun(sys, a, steps) && forall n :: 0 <= n < |steps| ==> Within(steps[n], |g.pauses|) {
      RunStopsShort(sys, a, steps, w, |g.pauses|, p);
    }
  }

  /** While a pause is in progress, the download can still complete, and so be taken back when
      the pause returns, if and only if its worker was nearly done when the pause was called. */
  lemma PauseTakesBackIffNearlyDone(sys: System, g: State, w: nat)
    requires Safe(sys, g) && Runs(g, w) && Orderly(sys, g, g.workers[w].file)
    requires NearlyDone(sys, g, w) ==> exists data :: Merges(sys, g, w, LastStore(g, w, data))
    ensures (exists steps :: CompletesUnderPause(sys, g, w, steps)) <==> NearlyDone(sys, g, w)
  {
    if NearlyDone(sys, g, w) {
      var data :| Merges(sys, g, w, LastStore(g, w, data));
      PauseWaits(sys, g, w);
      SignalledIsNearlyDone(sys, g, w, data);
      var a := Next(sys, g, PauseBegin(g.workers[w].file, true));
      ClosingCompletes(sys, a, w, data);
      ClosingIsQuiet(sys, a, w, data);
      assert CompletesUnderPause(sys, g, w, Closing(a, w, data));
    } else if steps :| CompletesUnderPause(sys, g, w, steps) {
      PauseInTimeStops(sys, g, w, steps);
    }
  }

  // ---- Runs from the start ----

  function Opening(file: Bytes, password: Bytes): seq<Step> {
    [Start(file, password, true), Begin(0, true)]
  }

  /** One orderly download, whose worker waits for its first chunk. */
  ghost predicate OnlyFetching(sys: System, g: State, store: Pipeline.Store, file: Bytes, password: Bytes) {
    var d := FreshDownload(sys, file, password);
    var fetching :=
      && Runs(g, 0) && g.workers == [Worker(file, 0, Fetching(WorkList(sys, d), 0), false, false)]
      && AllOrderly(sys, g) && g.objects == [d] && g.pauses == [] && g.store == store;
    fetching
  }

  /** The first download of a node, as soon as it waits for its first chunk. */
  lemma FirstDownload(sys: System, store: Pipeline.Store, file: Bytes, password: Bytes)
    requires WorkList(sys, FreshDownload(sys, file, password)) != []
    ensures CalmRun(sys, Init(store), Opening(file, password))
    ensures OnlyFetching(sys, Run(sys, Init(store), Opening(file, password)), store, file, password)
  {
    var d := FreshDownload(sys, file, password);
    var a := Next(sys, Init(store), Start(file, password, true));
    assert a.workers == [Worker(file, 0, Created, false, false)] && a.objects == [d] && a.pauses == [] &&
           a.store == store;
    RunTwo(sys, Init(store), Start(file, password, true), Begin(0, true));
    assert Opening(file, password)[1..] == [Begin(0, true)] && [Begin(0, true)][1..] == [];
    CalmReach(sys, store, Opening(file, password));
  }

  lemma NothingPending(g: State, file: Bytes)
    requires g.pauses == []
    ensures !PausePending(g, file)
  {
  }

  /** A stuck file, four steps from the start. */
  lemma StuckFromTheStart(sys: System, store: Pipeline.Store, file: Bytes, password: Bytes)
    requires WorkList(sys, FreshDownload(sys, file, password)) != []
    ensures Stuck(Run(sys, Init(store), Opening(file, password) + [FetchFails(0, true), ClearCompleted]), file)
  {
    var g := Run(sys, Init(store), Opening(file, password));
    FirstDownload(sys, store, file, password);
    NothingPending(g, file);
    assert Orderly(sys, g, file);
    FailedFetchThenClearSticks(sys, g, 0);
    RunConcat(sys, Init(store), Opening(file, password), [FetchFails(0, true), ClearCompleted]);
  }

  /** Two live workers on one file, seven steps from the start: the fetch fails while a pause
      waits, and the download is resumed before and after the pause returns. */
  lemma TwoWorkersFromTheStart(sys: System, store: Pipeline.Store, file: Bytes, password: Bytes)
    requires WorkList(sys, FreshDownload(sys, file, password)) != []
    ensures var steps := Opening(file, password) + ([PauseBegin(file, true), FetchFails(0, true)] +
                           [Resume(file, password, true), PauseEnd(0, true), Resume(file, password, true)]);
            var h := Run(sys, Init(store), steps);
            |h.workers| == 3 && h.workers[1] == h.workers[2] == Worker(file, 0, Created, false, false)
  {
    var g := Run(sys, Init(store), Opening(file, password));
    var failing := [PauseBegin(file, true), FetchFails(0, true)];
    var resuming := [Resume(file, password, true), PauseEnd(0, true), Resume(file, password, true)];
    FirstDownload(sys, store, file, password);
    NothingPending(g, file);
    assert Orderly(sys, g, file);
    FailureDuringPause(sys, g, 0);
    var a := Run(sys, g, failing);
    OneWorkerSoFar(sys, g, file);
    OverlappingResumeDoublesTheWorker(sys, a, 0, password, true);
    RunConcat(sys, Init(store), Opening(file, password), failing + resuming);
    RunConcat(sys, g, failing, resuming);
  }

  lemma OneWorkerSoFar(sys: System, g: State, file: Bytes)
    requires |g.workers| == 1
    ensures |Run(sys, g, [PauseBegin(file, true), FetchFails(0, true)]).workers| == 1
  {
    RunTwo(sys, g, PauseBegin(file, true), FetchFails(0, true));
    PauseBeginStays(g, file, true);
  }

  /** A file of one plain chunk: paused while that chunk is in flight, the download completes and
      is then marked paused, six steps from the start. */
  lemma TakenBackFromTheStart(sys: System, store: Pipeline.Store, file: Bytes, c: Chunker.ChunkInfo, data: Bytes)
    requires var m := sys.manifest(file);
             && m.chunks == [c] && c.index == 0 && !c.encrypted && m.compression != "zstd"
             && m.fileHash == sys.suite.hash(data) && c.chunkHash !in store
    ensures var closing := [FetchOk(0, data, true), MergeEnds(0, false, true, true)];
            var done := Run(sys, Init(store), Opening(file, []) + ([PauseBegin(file, true)] + closing));
            TakenBack(sys, done, Next(sys, done, PauseEnd(0, true)), file)
  {
    var g := Run(sys, Init(store), Opening(file, []));
    OneChunkToFetch(sys, file, c);
    FirstDownload(sys, store, file, []);
    assert Orderly(sys, g, file);
    PlainChunkMerges(sys, file, c, data, store[c.chunkHash := data], []);
    PauseOverwritesCompleted(sys, g, 0, data);
    RunConcat(sys, Init(store), Opening(file, []),
              [PauseBegin(file, true)] + [FetchOk(0, data, true), MergeEnds(0, false, true, true)]);
  }

  lemma OneChunkToFetch(sys: System, file: Bytes, c: Chunker.ChunkInfo)
    requires sys.manifest(file).chunks == [c] && c.index == 0
    ensures WorkList(sys, FreshDownload(sys, file, [])) == [c]
  {
    var d := FreshDownload(sys, file, []);
    assert d.missing[0] == 0;
    assert [c][1..] == [];
    assert Sort(Chunker.InfoByIndex, [c]) == [c];
    assert Lists(d.missing)(c);
    assert Filter(Lists(d.missing), [c]) == [c] + Filter(Lists(d.missing), [c][1..]);
  }

  lemma PlainChunkMerges(sys: System, file: Bytes, c: Chunker.ChunkInfo, data: Bytes, store: Pipeline.Store,
                         password: Bytes)
    requires var m := sys.manifest(file);
             && m.chunks == [c] && !c.encrypted && m.compression != "zstd" && m.fileHash == sys.suite.hash(data)
             && c.chunkHash in store && store[c.chunkHash] == data
    ensures Pipeline.PipelineMerged(sys.suite, store, sys.manifest(file), password) ==
            Chunker.DiskOutcome(None, Some(data))
  {
    assert [c][1..] == [];
    assert Sort(Chunker.InfoByIndex, [c]) == [c];
    assert Pipeline.LoadDecode(sys.suite, store, [c], password, false) == Chunker.Written([data], None);
    assert [data][1..] == [] && Chunker.Join([data][1..]) == [];
    assert Chunker.Join([data]) == data + [] == data;
    assert Pipeline.PipelineMerged(sys.suite, store, sys.manifest(file), password) ==
           Chunker.OnDisk(sys.suite, sys.suite.hash(data), Chunker.Written([data], None));
  }
}
