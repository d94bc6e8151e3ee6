/** The history of received chunks, and what completed lists have to do with it: without restart
    and clear an object has completed exactly what it received, and with them whatever it has
    completed was received by some object of the same file. A worker step adds at most one entry,
    for the chunk that it marks; all other steps leave the history alone. */
module DownloadHistory {
  import opened Primitives
  import opened Sorting
  import opened Downloads
  import opened DownloadSafety
  import opened DownloadLocality
  import opened DownloadControl
  import Pipeline

  /** What an object received is completed there, and belongs to its file. */
  ghost predicate HistoryOk(objects: seq<Download>, fetched: seq<Fetch>) {
    forall e :: e in fetched ==>
      && e.download < |objects| && objects[e.download].file == e.file && e.index in objects[e.download].completed
  }

  ghost predicate HasEntry(fetched: seq<Fetch>, k: nat, i: int) {
    exists e :: e in fetched && e.download == k && e.index == i
  }

  /** Only statuses, signals and references change: every worker is where it was, and every
      object lists the same chunks. */
  ghost predicate WorkStays(g: State, h: State) {
    && |h.workers| == |g.workers| && |h.objects| == |g.objects| && h.fetched == g.fetched
    && (forall w {:trigger h.workers[w]} :: 0 <= w < |g.workers| ==>
          h.workers[w] == g.workers[w].(signalled := h.workers[w].signalled, cancelled := h.workers[w].cancelled))
    && (forall k {:trigger h.objects[k]} :: 0 <= k < |g.objects| ==>
          h.objects[k] == g.objects[k].(status := h.objects[k].status))
  }

  lemma PausedWorkStays(g: State, h: State, id: nat)
    requires id < |g.objects| && h.workers == g.workers && h.fetched == g.fetched
    requires h.objects == g.objects[id := g.objects[id].(status := Paused)]
    ensures WorkStays(g, h)
  {
  }

  lemma SignalledWorkStays(g: State, h: State, w: nat, worker: Worker)
    requires w < |g.workers| && h.objects == g.objects && h.fetched == g.fetched
    requires worker == g.workers[w].(signalled := worker.signalled, cancelled := worker.cancelled)
    requires h.workers == g.workers[w := worker]
    ensures WorkStays(g, h)
  {
  }

  lemma WorkStaysIsTransitive(g: State, h: State, k: State)
    requires WorkStays(g, h) && WorkStays(h, k)
    ensures WorkStays(g, k)
  {
  }

  lemma PauseBeginStays(g: State, file: Bytes, saved: bool)
    ensures WorkStays(g, AfterPauseBegin(g, file, saved))
  {
    if Tracked(g, file) && g.objects[g.downloads[file]].status == Downloading {
      var id := g.downloads[file];
      var result := AfterPauseBegin(g, file, saved);
      if file in g.tasks && g.tasks[file] < |g.workers| {
        var w := g.tasks[file];
        var h := g.(workers := g.workers[w := g.workers[w].(signalled := true)]);
        SignalledWorkStays(g, h, w, g.workers[w].(signalled := true));
        if g.workers[w].phase != Ended {
          SignalledWorkStays(g, result, w, g.workers[w].(signalled := true));
        } else {
          PausedWorkStays(h, result, id);
          WorkStaysIsTransitive(g, h, result);
        }
      } else {
        PausedWorkStays(g, result, id);
      }
    }
  }

  lemma PauseTimeoutStays(g: State, k: nat)
    requires Waiting(g, k)
    ensures WorkStays(g, AfterPauseTimeout(g, k))
  {
    var w := g.pauses[k].worker;
    if g.workers[w].phase != Ended {
      SignalledWorkStays(g, AfterPauseTimeout(g, k), w, g.workers[w].(cancelled := true));
    }
  }

  lemma PauseEndStays(g: State, k: nat, saved: bool)
    requires Waiting(g, k)
    ensures WorkStays(g, AfterPauseEnd(g, k, saved))
  {
    PausedWorkStays(g, AfterPauseEnd(g, k, saved), g.pauses[k].download);
  }

  lemma PauseStays(sys: System, g: State, step: Step)
    requires step.PauseBegin? || step.PauseTimeout? || step.PauseEnd? || step.ClearCompleted?
    ensures WorkStays(g, Next(sys, g, step))
  {
    match step
    case PauseBegin(file, saved) => PauseBeginStays(g, file, saved);
    case PauseTimeout(k) => if Waiting(g, k) { PauseTimeoutStays(g, k); }
    case PauseEnd(k, saved) => if Waiting(g, k) { PauseEndStays(g, k, saved); }
    case ClearCompleted =>
  }

  /** Objects keep what they completed. */
  ghost predicate Kept(g: State, h: State) {
    && h.fetched == g.fetched && |g.objects| <= |h.objects|
    && forall k :: 0 <= k < |g.objects| ==>
         h.objects[k].completed == g.objects[k].completed && h.objects[k].file == g.objects[k].file
  }

  lemma LaunchKeeps(g: State, file: Bytes, id: nat, d: Download, saved: bool)
    requires id <= |g.objects|
    requires id < |g.objects| ==> d.completed == g.objects[id].completed && d.file == g.objects[id].file
    ensures Kept(g, Launch(Save(Track(g, file, id, d), id, saved), file, id))
  {
  }

  lemma StartKeeps(sys: System, g: State, file: Bytes, password: Bytes, saved: bool)
    requires Safe(sys, g)
    ensures Kept(g, AfterStart(sys, g, file, password, saved))
  {
    var existing := Existing(g, file);
    ReferencesOf(sys, g, file);
    if existing.Some? && existing.value.missing != [] {
      LaunchKeeps(g, file, Slot(g, file), existing.value.(status := Downloading, password := password), saved);
    } else {
      LaunchKeeps(g, file, |g.objects|, FreshDownload(sys, file, password), saved);
    }
  }

  lemma ResumeKeeps(sys: System, g: State, file: Bytes, password: Bytes, known: bool)
    requires Safe(sys, g)
    ensures Kept(g, AfterResume(g, file, password, known))
  {
    var existing := Existing(g, file);
    ReferencesOf(sys, g, file);
    if existing.Some? {
      LaunchKeeps(g, file, Slot(g, file), existing.value.(status := Downloading, password := password), false);
    }
  }

  lemma TouchKeeps(g: State, h: State, w: nat)
    requires Touches(g, h, w) && h.fetched == g.fetched
    requires h.objects[g.workers[w].download].completed == g.objects[g.workers[w].download].completed
    ensures Kept(g, h)
  {
  }

  lemma BeginKeeps(sys: System, g: State, w: nat, saved: bool)
    requires UsesItsFile(g, w)
    ensures Kept(g, Next(sys, g, Begin(w, saved)))
  {
    var todo := WorkList(sys, g.objects[g.workers[w].download]);
    AdvanceOutcome(g, w, todo, 0, saved);
  }

  lemma FetchFailsKeeps(g: State, w: nat, saved: bool)
    requires UsesItsFile(g, w)
    ensures Kept(g, AfterFetchFails(g, w, saved))
  {
    FetchFailsTouches(g, w, saved);
    TouchKeeps(g, AfterFetchFails(g, w, saved), w);
  }

  lemma CancelledKeeps(g: State, w: nat, saved: bool)
    requires UsesItsFile(g, w)
    ensures Kept(g, AfterCancelled(g, w, saved))
  {
    CancelledTouches(g, w, saved);
    TouchKeeps(g, AfterCancelled(g, w, saved), w);
  }

  lemma MergeKeeps(sys: System, g: State, w: nat, raises: bool, saved: bool, unlinks: bool)
    requires UsesItsFile(g, w)
    ensures Kept(g, AfterMerge(sys, g, w, raises, saved, unlinks))
  {
    MergeOutcome(sys, g, w, raises, saved, unlinks);
    MergeTouches(sys, g, w, raises, saved, unlinks);
    TouchKeeps(g, AfterMerge(sys, g, w, raises, saved, unlinks), w);
  }

  /** Only an arriving chunk changes what is completed and what was received. */
  lemma StepKeeps(sys: System, g: State, step: Step)
    requires Safe(sys, g) && !step.FetchOk?
    ensures Kept(g, Next(sys, g, step))
  {
    if step.Start? {
      StartKeeps(sys, g, step.file, step.password, step.saved);
    } else if step.Resume? {
      ResumeKeeps(sys, g, step.file, step.password, step.manifestKnown);
    } else if step.PauseBegin? || step.PauseTimeout? || step.PauseEnd? || step.ClearCompleted? {
      PauseStays(sys, g, step);
    } else if step.Crash? {
      if ListsResumeFiles(g, step.listing) {
        RecoverTracks(sys, g.(workers := [], pauses := [], downloads := map[], tasks := map[]), step.listing, []);
      }
    } else if !step.ChunkArrives? {
      if Live(g, step.worker) {
        WorkersUseTheirFile(sys, g, step.worker);
        WorkersKeep(sys, g, step);
      }
    }
  }

  lemma WorkersKeep(sys: System, g: State, step: Step)
    requires step.Begin? || step.FetchFails? || step.MergeEnds? || step.Cancelled?
    requires UsesItsFile(g, step.worker)
    ensures Kept(g, Next(sys, g, step))
  {
    match step {
      case Begin(w, saved) => BeginKeeps(sys, g, w, saved);
      case FetchFails(w, saved) => FetchFailsKeeps(g, w, saved);
      case MergeEnds(w, raises, saved, unlinks) => MergeKeeps(sys, g, w, raises, saved, unlinks);
      case Cancelled(w, saved) => CancelledKeeps(g, w, saved);
    }
  }

  lemma FetchOkKeepsHistory(sys: System, g: State, w: nat, data: Bytes, saved: bool)
    requires Safe(sys, g) && HistoryOk(g.objects, g.fetched)
    requires Live(g, w) && g.workers[w].phase.Fetching? && g.workers[w].phase.todo != []
    ensures var h := AfterFetchOk(g, w, data, saved);
            HistoryOk(h.objects, h.fetched)
  {
    FirstChunk(sys, g, w);
    MarkKeepsSplit(g.objects[g.workers[w].download], g.workers[w].phase.todo[0].index);
    FetchOkOutcome(g, w, data, saved);
  }

  lemma StepKeepsHistory(sys: System, g: State, step: Step)
    requires Safe(sys, g) && HistoryOk(g.objects, g.fetched)
    ensures HistoryOk(Next(sys, g, step).objects, Next(sys, g, step).fetched)
  {
    if !step.FetchOk? {
      StepKeeps(sys, g, step);
    } else if Runs(g, step.worker) && g.workers[step.worker].phase.Fetching? &&
      g.workers[step.worker].phase.todo != [] {
      FetchOkKeepsHistory(sys, g, step.worker, step.data, step.saved);
    }
  }

  // ---- Without restarts and clears ----

  /** Every file ever downloaded is tracked, and every object completed only what it received. */
  ghost predicate OwnHistory(g: State) {
    var own :=
      && (forall k :: 0 <= k < |g.objects| ==> g.objects[k].file in g.downloads)
      && (forall f :: f in g.disk ==> f in g.downloads)
      && (forall k, i :: 0 <= k < |g.objects| && i in g.objects[k].completed ==> HasEntry(g.fetched, k, i));
    own
  }

  /** Tracked files stay tracked; what is new, in memory or on disk, is tracked; new objects start
      with nothing completed. */
  ghost predicate Extends(g: State, h: State) {
    && (forall f :: f in g.downloads ==> f in h.downloads)
    && (forall f :: f in h.disk ==> f in g.disk || f in h.downloads)
    && (forall k :: |g.objects| <= k < |h.objects| ==> h.objects[k].completed == [] && h.objects[k].file in h.downloads)
  }

  lemma KeptAndExtended(g: State, h: State)
    requires OwnHistory(g) && Kept(g, h) && Extends(g, h)
    ensures OwnHistory(h)
  {
    forall k, i | 0 <= k < |h.objects| && i in h.objects[k].completed
      ensures HasEntry(h.fetched, k, i)
    {
      if k < |g.objects| {
        assert i in g.objects[k].completed;
      }
    }
  }

  lemma LaunchExtends(g: State, file: Bytes, id: nat, d: Download, saved: bool)
    requires id <= |g.objects| && d.file == file && (id == |g.objects| ==> d.completed == [])
    ensures Extends(g, Launch(Save(Track(g, file, id, d), id, saved), file, id))
  {
  }

  lemma StartExtends(sys: System, g: State, file: Bytes, password: Bytes, saved: bool)
    requires Safe(sys, g) && OwnHistory(g)
    ensures Extends(g, AfterStart(sys, g, file, password, saved))
  {
    var existing := Existing(g, file);
    ReferencesOf(sys, g, file);
    if existing.Some? && existing.value.missing != [] {
      assert Tracked(g, file);
      LaunchExtends(g, file, Slot(g, file), existing.value.(status := Downloading, password := password), saved);
    } else {
      LaunchExtends(g, file, |g.objects|, FreshDownload(sys, file, password), saved);
    }
  }

  lemma ResumeExtends(sys: System, g: State, file: Bytes, password: Bytes, known: bool)
    requires Safe(sys, g) && OwnHistory(g)
    ensures Extends(g, AfterResume(g, file, password, known))
  {
    var existing := Existing(g, file);
    ReferencesOf(sys, g, file);
    if existing.Some? {
      assert Tracked(g, file);
      LaunchExtends(g, file, Slot(g, file), existing.value.(status := Downloading, password := password), false);
    }
  }

  lemma FinishPauseExtends(g: State, file: Bytes, id: nat, saved: bool)
    requires id < |g.objects| && g.objects[id].file in g.downloads
    ensures Extends(g, FinishPause(g, file, id, saved))
  {
  }

  lemma PauseBeginExtends(g: State, file: Bytes, saved: bool)
    requires OwnHistory(g)
    ensures Extends(g, AfterPauseBegin(g, file, saved))
  {
    if Tracked(g, file) && g.objects[g.downloads[file]].status == Downloading {
      var id := g.downloads[file];
      if file in g.tasks && g.tasks[file] < |g.workers| {
        var w := g.tasks[file];
        var h := g.(workers := g.workers[w := g.workers[w].(signalled := true)]);
        FinishPauseExtends(h, file, id, saved);
      } else {
        FinishPauseExtends(g, file, id, saved);
      }
    }
  }

  lemma PauseEndExtends(g: State, k: nat, saved: bool)
    requires OwnHistory(g) && Waiting(g, k)
    ensures Extends(g, AfterPauseEnd(g, k, saved))
  {
    var p := g.pauses[k];
    FinishPauseExtends(g.(pauses := g.pauses[k := p.(returned := true)]), p.file, p.download, saved);
  }

  lemma TouchExtends(g: State, h: State, w: nat)
    requires OwnHistory(g) && Touches(g, h, w) && UsesItsFile(g, w)
    ensures Extends(g, h)
  {
    var file := g.workers[w].file;
    forall f | f in h.disk
      ensures f in g.disk || f in h.downloads
    {
      if f != file {
        EntryElsewhere(g.disk, h.disk, file, f);
      }
    }
  }

  lemma FetchOkOwns(sys: System, g: State, w: nat, data: Bytes, saved: bool)
    requires Safe(sys, g) && OwnHistory(g)
    requires Live(g, w) && g.workers[w].phase.Fetching? && g.workers[w].phase.todo != []
    ensures OwnHistory(AfterFetchOk(g, w, data, saved))
  {
    var id, c := g.workers[w].download, g.workers[w].phase.todo[0];
    var h := AfterFetchOk(g, w, data, saved);
    FirstChunk(sys, g, w);
    MarkKeepsSplit(g.objects[id], c.index);
    FetchOkOutcome(g, w, data, saved);
    FetchOkTouches(g, w, data, saved);
    TouchExtends(g, h, w);
    forall k, i | 0 <= k < |h.objects| && i in h.objects[k].completed
      ensures HasEntry(h.fetched, k, i)
    {
      var entry := Fetch(id, g.workers[w].file, c.index);
      assert entry in h.fetched;
      if !(k == id && i == c.index) {
        assert i in g.objects[k].completed;
        var e :| e in g.fetched && e.download == k && e.index == i;
        assert e in h.fetched;
      }
    }
  }

  lemma StepOwns(sys: System, g: State, step: Step)
    requires Safe(sys, g) && OwnHistory(g) && !step.Crash? && !step.ClearCompleted?
    ensures OwnHistory(Next(sys, g, step))
  {
    var h := Next(sys, g, step);
    if step.FetchOk? {
      if h != g {
        FetchOkOwns(sys, g, step.worker, step.data, step.saved);
      }
    } else if h != g {
      StepKeeps(sys, g, step);
      if step.Start? {
        StartExtends(sys, g, step.file, step.password, step.saved);
      } else if step.Resume? {
        ResumeExtends(sys, g, step.file, step.password, step.manifestKnown);
      } else if step.PauseBegin? {
        PauseBeginExtends(g, step.file, step.saved);
      } else if step.PauseEnd? {
        PauseEndExtends(g, step.pause, step.saved);
      } else if !step.PauseTimeout? && !step.ChunkArrives? {
        WorkersUseTheirFile(sys, g, step.worker);
        if step.Begin? {
          FetchingTouches(sys, g, step);
        } else {
          EndingTouches(sys, g, step);
        }
        TouchExtends(g, h, step.worker);
      }
      KeptAndExtended(g, h);
    }
  }

  lemma {:induction false} RunsOwn(sys: System, g: State, steps: seq<Step>)
    requires Safe(sys, g) && OwnHistory(g) && HistoryOk(g.objects, g.fetched)
    requires forall n :: 0 <= n < |steps| ==> !steps[n].Crash? && !steps[n].ClearCompleted?
    ensures OwnHistory(Run(sys, g, steps)) && HistoryOk(Run(sys, g, steps).objects, Run(sys, g, steps).fetched)
    decreases |steps|
  {
    if steps != [] {
      StepIsSafe(sys, g, steps[0]);
      StepOwns(sys, g, steps[0]);
      StepKeepsHistory(sys, g, steps[0]);
      RunsOwn(sys, Next(sys, g, steps[0]), steps[1..]);
    }
  }

  /** Over every run without restart and clear, whatever overlaps: an object has completed exactly
      the chunks that it received. */
  lemma CompletedIsReceived(sys: System, store: Pipeline.Store, steps: seq<Step>)
    requires forall n :: 0 <= n < |steps| ==> !steps[n].Crash? && !steps[n].ClearCompleted?
    ensures var g := Run(sys, Init(store), steps);
            forall k, i :: 0 <= k < |g.objects| ==> (i in g.objects[k].completed <==> HasEntry(g.fetched, k, i))
  {
    RunsOwn(sys, Init(store), steps);
  }

  lemma {:induction false} RunsKeepHistory(sys: System, g: State, steps: seq<Step>)
    requires Safe(sys, g) && HistoryOk(g.objects, g.fetched)
    ensures Safe(sys, Run(sys, g, steps)) && HistoryOk(Run(sys, g, steps).objects, Run(sys, g, steps).fetched)
    decreases |steps|
  {
    if steps != [] {
      StepIsSafe(sys, g, steps[0]);
      StepKeepsHistory(sys, g, steps[0]);
      RunsKeepHistory(sys, Next(sys, g, steps[0]), steps[1..]);
    }
  }

  /** Over every run, with restarts and clears: whatever an object has completed was received by
      an object for the same file, and is completed there. */
  lemma CompletedWasReceivedForTheFile(sys: System, store: Pipeline.Store, steps: seq<Step>, k: nat, i: int)
    requires k < |Run(sys, Init(store), steps).objects| && i in Run(sys, Init(store), steps).objects[k].completed
    ensures var g := Run(sys, Init(store), steps);
            exists j :: 0 <= j < |g.objects| && HasEntry(g.fetched, j, i) && g.objects[j].file == g.objects[k].file
                        && i in g.objects[j].completed
  {
    var g := Run(sys, Init(store), steps);
    RunsKeepHistory(sys, Init(store), steps);
    ObjectIsOk(sys, g, k);
    assert Received(g.fetched, g.objects[k].file, i);
    var e :| e in g.fetched && e.file == g.objects[k].file && e.index == i;
    assert HasEntry(g.fetched, e.download, i);
  }
}
