/** A call or a worker step about one file leaves every other file as it was: its tracked entry,
    task, resume file, output, objects, workers and pauses. Invariants that speak of one file thus
    need to be proved only for the steps that are about that file, and for a restart and
    `clear_completed`, which are about all of them. */
module DownloadLocality {
  import opened Primitives
  import opened Sorting
  import opened Downloads
  import opened DownloadSafety
  import Chunker
  import Pipeline

  predicate SameEntry<V(==)>(a: map<Bytes, V>, b: map<Bytes, V>, file: Bytes) {
    (file in a <==> file in b) && (file in a ==> a[file] == b[file])
  }

  ghost predicate SameObjects(a: seq<Download>, b: seq<Download>, file: Bytes) {
    |a| <= |b| && forall k {:trigger a[k]} {:trigger b[k]} :: 0 <= k < |a| && a[k].file == file ==> b[k] == a[k]
  }

  ghost predicate SameWorkers(a: seq<Worker>, b: seq<Worker>, file: Bytes) {
    && |a| <= |b|
    && (forall w {:trigger a[w]} {:trigger b[w]} :: 0 <= w < |a| && a[w].file == file ==> b[w] == a[w])
    && (forall w {:trigger b[w]} :: 0 <= w < |b| && b[w].file == file ==> w < |a| && b[w] == a[w])
  }

  ghost predicate SamePauses(a: seq<Pause>, b: seq<Pause>, file: Bytes) {
    && |a| <= |b|
    && (forall k {:trigger a[k]} {:trigger b[k]} :: 0 <= k < |a| && a[k].file == file ==> b[k] == a[k])
    && (forall k {:trigger b[k]} :: 0 <= k < |b| && b[k].file == file ==> k < |a| && b[k] == a[k])
  }

  ghost predicate SameFor(g: State, h: State, file: Bytes) {
    var same :=
      && SameEntry(g.downloads, h.downloads, file) && SameEntry(g.tasks, h.tasks, file)
      && SameEntry(g.disk, h.disk, file) && SameEntry(g.outputs, h.outputs, file)
      && SameObjects(g.objects, h.objects, file)
      && SameWorkers(g.workers, h.workers, file)
      && SamePauses(g.pauses, h.pauses, file);
    same
  }

  /** The file a step is about. */
  function StepFile(g: State, step: Step): Option<Bytes> {
    match step
    case Start(file, _, _) => Some(file)
    case Resume(file, _, _) => Some(file)
    case PauseBegin(file, _) => Some(file)
    case PauseTimeout(k) => if k < |g.pauses| then Some(g.pauses[k].file) else None
    case PauseEnd(k, _) => if k < |g.pauses| then Some(g.pauses[k].file) else None
    case Begin(w, _) => WorkerFile(g, w)
    case FetchOk(w, _, _) => WorkerFile(g, w)
    case FetchFails(w, _) => WorkerFile(g, w)
    case MergeEnds(w, _, _, _) => WorkerFile(g, w)
    case Cancelled(w, _) => WorkerFile(g, w)
    case ChunkArrives(_, _) => None
    case ClearCompleted => None
    case Crash(_) => None
  }

  function WorkerFile(g: State, w: nat): Option<Bytes> {
    if w < |g.workers| then Some(g.workers[w].file) else None
  }

  lemma WorkersUseTheirFile(sys: System, g: State, w: nat)
    requires Safe(sys, g) && w < |g.workers|
    ensures g.workers[w].download < |g.objects| && g.objects[g.workers[w].download].file == g.workers[w].file
  {
    WorkerIsOk(sys, g, w);
  }

  lemma PausesUseTheirFile(sys: System, g: State, k: nat)
    requires Safe(sys, g) && k < |g.pauses|
    ensures PauseOk(g.objects, g.workers, g.pauses[k])
  {
    assert PauseOk(g.objects, g.workers, g.pauses[k]);
  }

  lemma ObjectIsForeign(a: seq<Download>, id: nat, d: Download, file: Bytes)
    requires id <= |a| && (id < |a| ==> a[id].file != file)
    ensures SameObjects(a, if id < |a| then a[id := d] else a + [d], file)
  {
  }

  lemma WorkerIsForeign(a: seq<Worker>, w: nat, worker: Worker, file: Bytes)
    requires w <= |a| && worker.file != file && (w < |a| ==> a[w].file != file)
    ensures SameWorkers(a, if w < |a| then a[w := worker] else a + [worker], file)
  {
  }

  lemma PauseIsForeign(a: seq<Pause>, k: nat, p: Pause, file: Bytes)
    requires k <= |a| && p.file != file && (k < |a| ==> a[k].file != file)
    ensures SamePauses(a, if k < |a| then a[k := p] else a + [p], file)
  {
  }

  lemma NothingChanges(g: State, file: Bytes)
    ensures SameFor(g, g, file)
  {
  }

  lemma LaunchIsLocal(g: State, other: Bytes, id: nat, d: Download, saved: bool, file: Bytes)
    requires id <= |g.objects| && d.file == other != file && (id < |g.objects| ==> g.objects[id].file == other)
    ensures SameFor(g, Launch(Save(Track(g, other, id, d), id, saved), other, id), file)
  {
    NothingChanges(g, file);
    ObjectIsForeign(g.objects, id, d, file);
    WorkerIsForeign(g.workers, |g.workers|, Worker(other, id, Created, false, false), file);
  }

  lemma StartIsLocal(sys: System, g: State, other: Bytes, password: Bytes, saved: bool, file: Bytes)
    requires other != file
    requires Existing(g, other).Some? ==> Existing(g, other).value.file == other
    requires Slot(g, other) < |g.objects| ==> g.objects[Slot(g, other)].file == other
    ensures SameFor(g, AfterStart(sys, g, other, password, saved), file)
  {
    NothingChanges(g, file);
    var existing := Existing(g, other);
    if existing.Some? && existing.value.status != Downloading && existing.value.missing != [] {
      LaunchIsLocal(g, other, Slot(g, other), existing.value.(status := Downloading, password := password), saved,
                    file);
    } else {
      LaunchIsLocal(g, other, |g.objects|, FreshDownload(sys, other, password), saved, file);
    }
  }

  lemma ResumeIsLocal(g: State, other: Bytes, password: Bytes, known: bool, file: Bytes)
    requires other != file
    requires Existing(g, other).Some? ==> Existing(g, other).value.file == other
    requires Slot(g, other) < |g.objects| ==> g.objects[Slot(g, other)].file == other
    ensures SameFor(g, AfterResume(g, other, password, known), file)
  {
    NothingChanges(g, file);
    var existing := Existing(g, other);
    if existing.Some? {
      LaunchIsLocal(g, other, Slot(g, other), existing.value.(status := Downloading, password := password), false,
                    file);
    }
  }

  lemma FinishPauseIsLocal(g: State, paused: Bytes, id: nat, saved: bool, file: Bytes)
    requires id < |g.objects| && g.objects[id].file == paused != file
    ensures SameFor(g, FinishPause(g, paused, id, saved), file)
  {
    NothingChanges(g, file);
    ObjectIsForeign(g.objects, id, g.objects[id].(status := Paused), file);
  }

  lemma SignalIsLocal(g: State, w: nat, worker: Worker, pauses: seq<Pause>, file: Bytes)
    requires w < |g.workers| && g.workers[w].file == worker.file != file && SamePauses(g.pauses, pauses, file)
    ensures SameFor(g, g.(workers := g.workers[w := worker], pauses := pauses), file)
  {
    NothingChanges(g, file);
    WorkerIsForeign(g.workers, w, worker, file);
  }

  lemma PauseBeginIsLocal(g: State, other: Bytes, saved: bool, file: Bytes)
    requires other != file
    requires Slot(g, other) < |g.objects| ==> g.objects[Slot(g, other)].file == other
    requires other in g.tasks && g.tasks[other] < |g.workers| ==> g.workers[g.tasks[other]].file == other
    ensures SameFor(g, AfterPauseBegin(g, other, saved), file)
  {
    NothingChanges(g, file);
    if other in g.downloads && g.downloads[other] < |g.objects| {
      var id := g.downloads[other];
      if other in g.tasks && g.tasks[other] < |g.workers| {
        var w := g.tasks[other];
        var worker := g.workers[w].(signalled := true);
        var h := g.(workers := g.workers[w := worker]);
        PauseIsForeign(g.pauses, |g.pauses|, Pause(other, id, w, false), file);
        SignalIsLocal(g, w, worker, g.pauses + [Pause(other, id, w, false)], file);
        SignalIsLocal(g, w, worker, g.pauses, file);
        FinishPauseIsLocal(h, other, id, saved, file);
        SameForIsTransitive(g, h, FinishPause(h, other, id, saved), file);
      } else {
        FinishPauseIsLocal(g, other, id, saved, file);
      }
    }
  }

  lemma PauseEndIsLocal(g: State, k: nat, saved: bool, file: Bytes)
    requires Waiting(g, k) && g.pauses[k].file != file && PauseOk(g.objects, g.workers, g.pauses[k])
    ensures SameFor(g, AfterPauseEnd(g, k, saved), file)
  {
    var p := g.pauses[k];
    var h := g.(pauses := g.pauses[k := p.(returned := true)]);
    NothingChanges(g, file);
    PauseIsForeign(g.pauses, k, p.(returned := true), file);
    FinishPauseIsLocal(h, p.file, p.download, saved, file);
    SameForIsTransitive(g, h, AfterPauseEnd(g, k, saved), file);
  }

  lemma PauseTimeoutIsLocal(g: State, k: nat, file: Bytes)
    requires Waiting(g, k) && g.pauses[k].file != file && PauseOk(g.objects, g.workers, g.pauses[k])
    ensures SameFor(g, AfterPauseTimeout(g, k), file)
  {
    var w := g.pauses[k].worker;
    NothingChanges(g, file);
    SignalIsLocal(g, w, g.workers[w].(cancelled := true), g.pauses, file);
  }

  lemma SameForIsTransitive(g: State, h: State, k: State, file: Bytes)
    requires SameFor(g, h, file) && SameFor(h, k, file)
    ensures SameFor(g, k, file)
  {
  }

  /** A worker step changes at most its worker, that worker's object, and its file's entries on disk. */
  ghost predicate Touches(g: State, h: State, w: nat) {
    && Live(g, w) && |h.objects| == |g.objects| && |h.workers| == |g.workers|
    && var id := g.workers[w].download;
    var file := g.workers[w].file;
    && h.objects == g.objects[id := h.objects[id]]
    && h.workers == g.workers[w := h.workers[w]]
    && h.objects[id].file == g.objects[id].file
    && h.workers[w] == g.workers[w].(phase := h.workers[w].phase)
    && h.pauses == g.pauses && h.downloads == g.downloads && h.tasks == g.tasks
    && h.disk - {file} == g.disk - {file} && h.outputs - {file} == g.outputs - {file}
  }

  ghost predicate UsesItsFile(g: State, w: nat) {
    Live(g, w) && g.objects[g.workers[w].download].file == g.workers[w].file
  }

  lemma RewritingInPlace<T, V>(s: seq<T>, i: nat, m: map<Bytes, V>, file: Bytes, v: V)
    requires i < |s|
    ensures s[i := s[i]] == s
    ensures m[file := v] - {file} == m - {file} && m - {file} - {file} == m - {file}
  {
  }

  lemma MoveTouches(g: State, w: nat, phase: Phase)
    requires UsesItsFile(g, w)
    ensures Touches(g, SetWorker(g, w, phase), w)
  {
    RewritingInPlace(g.objects, g.workers[w].download, g.disk, g.workers[w].file, g.objects[g.workers[w].download]);
  }

  lemma SaveTouches(g: State, w: nat, saved: bool)
    requires UsesItsFile(g, w)
    ensures var h := Save(g, g.workers[w].download, saved);
            Touches(g, h, w) && UsesItsFile(h, w)
  {
    var id := g.workers[w].download;
    RewritingInPlace(g.objects, id, g.disk, g.workers[w].file, Persisted(g.objects[id]));
    assert g.workers[w := g.workers[w]] == g.workers;
  }

  lemma ClosingOutputTouches(g: State, h: State, w: nat)
    requires Touches(g, h, w)
    ensures Touches(g, h.(outputs := h.outputs - {g.workers[w].file}), w)
  {
    var file := g.workers[w].file;
    assert h.outputs - {file} - {file} == h.outputs - {file};
  }

  /** Saving, and then changing the worker's phase, is all that most worker steps do. */
  lemma SaveAndMoveTouches(g: State, w: nat, saved: bool, phase: Phase)
    requires UsesItsFile(g, w)
    ensures var h := SetWorker(Save(g, g.workers[w].download, saved), w, phase);
            Touches(g, h, w) && Touches(g, h.(outputs := h.outputs - {g.workers[w].file}), w)
  {
    var h := Save(g, g.workers[w].download, saved);
    SaveTouches(g, w, saved);
    MoveTouches(h, w, phase);
    TouchesIsTransitive(g, h, SetWorker(h, w, phase), w);
    ClosingOutputTouches(g, SetWorker(h, w, phase), w);
  }

  lemma StatusTouches(g: State, w: nat, status: Status)
    requires UsesItsFile(g, w)
    ensures Touches(g, SetStatus(g, g.workers[w].download, status), w)
    ensures UsesItsFile(SetStatus(g, g.workers[w].download, status), w)
  {
    assert g.workers[w := g.workers[w]] == g.workers;
  }

  lemma AdvanceTouches(g: State, w: nat, todo: seq<Chunker.ChunkInfo>, sinceFlush: nat, saved: bool)
    requires UsesItsFile(g, w)
    ensures Touches(g, Advance(g, w, todo, sinceFlush, saved), w)
  {
    SaveAndMoveTouches(g, w, saved, Merging);
    MoveTouches(g, w, if g.workers[w].signalled then Ended else Fetching(todo, sinceFlush));
  }

  lemma ReceiveTouches(g: State, w: nat, data: Bytes, saved: bool)
    requires UsesItsFile(g, w) && g.workers[w].phase.Fetching? && g.workers[w].phase.todo != []
    ensures Touches(g, Receive(g, w, data, saved), w) && UsesItsFile(Receive(g, w, data, saved), w)
  {
  }

  lemma TouchesIsTransitive(g: State, h: State, k: State, w: nat)
    requires Touches(g, h, w) && Touches(h, k, w)
    ensures Touches(g, k, w)
  {
  }

  lemma FetchOkTouches(g: State, w: nat, data: Bytes, saved: bool)
    requires UsesItsFile(g, w) && g.workers[w].phase.Fetching? && g.workers[w].phase.todo != []
    ensures Touches(g, AfterFetchOk(g, w, data, saved), w)
  {
    var h := Receive(g, w, data, saved);
    var phase := g.workers[w].phase;
    ReceiveTouches(g, w, data, saved);
    AdvanceTouches(h, w, phase.todo[1..],
                   if phase.sinceFlush + 1 >= FLUSH_INTERVAL then 0 else phase.sinceFlush + 1, saved);
    TouchesIsTransitive(g, h, AfterFetchOk(g, w, data, saved), w);
  }

  lemma FetchFailsTouches(g: State, w: nat, saved: bool)
    requires UsesItsFile(g, w)
    ensures Touches(g, AfterFetchFails(g, w, saved), w)
  {
    var id := g.workers[w].download;
    var h := Save(g, id, saved);
    SaveTouches(g, w, saved);
    StatusTouches(h, w, Failed);
    TouchesIsTransitive(g, h, SetStatus(h, id, Failed), w);
    MoveTouches(SetStatus(h, id, Failed), w, Ended);
    TouchesIsTransitive(g, SetStatus(h, id, Failed), AfterFetchFails(g, w, saved), w);
  }

  lemma CancelledTouches(g: State, w: nat, saved: bool)
    requires UsesItsFile(g, w)
    ensures Touches(g, AfterCancelled(g, w, saved), w)
  {
    var h := SetStatus(g, g.workers[w].download, Paused);
    MoveTouches(g, w, Ended);
    StatusTouches(g, w, Paused);
    SaveAndMoveTouches(h, w, saved, Ended);
    TouchesIsTransitive(g, h, SetWorker(Save(h, g.workers[w].download, saved), w, Ended), w);
  }

  lemma MergeFailedTouches(g: State, w: nat, saved: bool)
    requires UsesItsFile(g, w)
    ensures Touches(g, MergeFailed(g, w, saved), w)
  {
    var h := SetStatus(g, g.workers[w].download, Failed);
    StatusTouches(g, w, Failed);
    SaveAndMoveTouches(h, w, saved, Ended);
    TouchesIsTransitive(g, h, MergeFailed(g, w, saved), w);
  }

  lemma CompletedTouches(g: State, w: nat, saved: bool, outputs: map<Bytes, Bytes>)
    requires UsesItsFile(g, w) && outputs - {g.workers[w].file} == g.outputs - {g.workers[w].file}
    ensures var h := Save(SetStatus(g, g.workers[w].download, Completed), g.workers[w].download, saved);
            && Touches(g, h, w) && UsesItsFile(h, w)
            && Touches(g, SetWorker(h, w, Ended).(disk := h.disk - {g.workers[w].file}, outputs := outputs), w)
  {
  }

  lemma MergeDoneTouches(g: State, w: nat, merged: Bytes, saved: bool, unlinks: bool)
    requires UsesItsFile(g, w)
    ensures Touches(g, MergeDone(g, w, merged, saved, unlinks), w)
  {
    var h := Save(SetStatus(g, g.workers[w].download, Completed), g.workers[w].download, saved);
    CompletedTouches(g, w, saved, g.outputs[g.workers[w].file := merged]);
    MergeFailedTouches(h, w, saved);
    TouchesIsTransitive(g, h, MergeFailed(h, w, saved), w);
  }

  lemma MergeTouches(sys: System, g: State, w: nat, raises: bool, saved: bool, unlinks: bool)
    requires UsesItsFile(g, w)
    ensures Touches(g, AfterMerge(sys, g, w, raises, saved, unlinks), w)
  {
    var r := Pipeline.PipelineMerged(sys.suite, g.store, sys.manifest(g.workers[w].file),
                                     g.objects[g.workers[w].download].password);
    if raises || r.error.Some? || r.file.None? {
      MergeFailedTouches(g, w, saved);
    } else {
      MergeDoneTouches(g, w, r.file.value, saved, unlinks);
    }
  }

  lemma FetchingTouches(sys: System, g: State, step: Step)
    requires step.Begin? || step.FetchOk?
    requires UsesItsFile(g, step.worker)
    ensures Touches(g, Next(sys, g, step), step.worker) || Next(sys, g, step) == g
  {
    match step
    case Begin(w, saved) => AdvanceTouches(g, w, WorkList(sys, g.objects[g.workers[w].download]), 0, saved);
    case FetchOk(w, data, saved) =>
      if g.workers[w].phase.Fetching? && g.workers[w].phase.todo != [] {
        FetchOkTouches(g, w, data, saved);
      }
  }

  lemma EndingTouches(sys: System, g: State, step: Step)
    requires step.FetchFails? || step.MergeEnds? || step.Cancelled?
    requires UsesItsFile(g, step.worker)
    ensures Touches(g, Next(sys, g, step), step.worker) || Next(sys, g, step) == g
  {
    match step
    case FetchFails(w, saved) => FetchFailsTouches(g, w, saved);
    case MergeEnds(w, raises, saved, unlinks) => MergeTouches(sys, g, w, raises, saved, unlinks);
    case Cancelled(w, saved) => CancelledTouches(g, w, saved);
  }

  lemma EntryElsewhere<V>(a: map<Bytes, V>, b: map<Bytes, V>, touched: Bytes, file: Bytes)
    requires a - {touched} == b - {touched} && file != touched
    ensures SameEntry(a, b, file)
  {
    assert file in a <==> file in a - {touched};
    assert file in b <==> file in b - {touched};
  }

  lemma TouchIsLocal(g: State, h: State, w: nat, file: Bytes)
    requires Touches(g, h, w) && UsesItsFile(g, w) && g.workers[w].file != file
    ensures SameFor(g, h, file)
  {
    NothingChanges(g, file);
    ObjectIsForeign(g.objects, g.workers[w].download, h.objects[g.workers[w].download], file);
    WorkerIsForeign(g.workers, w, h.workers[w], file);
    EntryElsewhere(g.disk, h.disk, g.workers[w].file, file);
    EntryElsewhere(g.outputs, h.outputs, g.workers[w].file, file);
  }

  lemma WorkerIsLocal(sys: System, g: State, step: Step, file: Bytes)
    requires Safe(sys, g) && StepFile(g, step) != Some(file)
    requires step.Begin? || step.FetchOk? || step.FetchFails? || step.MergeEnds? || step.Cancelled?
    ensures SameFor(g, Next(sys, g, step), file)
  {
    NothingChanges(g, file);
    if Live(g, step.worker) {
      WorkersUseTheirFile(sys, g, step.worker);
      if step.Begin? || step.FetchOk? {
        FetchingTouches(sys, g, step);
      } else {
        EndingTouches(sys, g, step);
      }
      if Next(sys, g, step) != g {
        TouchIsLocal(g, Next(sys, g, step), step.worker, file);
      }
    }
  }

  lemma ReferencesOf(sys: System, g: State, file: Bytes)
    requires Safe(sys, g)
    ensures Existing(g, file).Some? ==> Existing(g, file).value.file == file
    ensures Slot(g, file) < |g.objects| ==> g.objects[Slot(g, file)].file == file
    ensures file in g.tasks && g.tasks[file] < |g.workers| ==> g.workers[g.tasks[file]].file == file
  {
    if file in g.disk {
      ResumeFileIsOk(sys, g, file);
    }
  }

  /** Whatever one file's calls and workers do, every other file keeps its tracked object, its
      task, its workers and pauses, its resume file and its output. */
  lemma StepsAreLocal(sys: System, g: State, step: Step, file: Bytes)
    requires Safe(sys, g) && StepFile(g, step) != Some(file)
    requires !step.ClearCompleted? && !step.Crash?
    ensures SameFor(g, Next(sys, g, step), file)
  {
    NothingChanges(g, file);
    match step
    case Start(other, password, saved) =>
      ReferencesOf(sys, g, other);
      StartIsLocal(sys, g, other, password, saved, file);
    case Resume(other, password, known) =>
      ReferencesOf(sys, g, other);
      ResumeIsLocal(g, other, password, known, file);
    case PauseBegin(other, saved) =>
      ReferencesOf(sys, g, other);
      PauseBeginIsLocal(g, other, saved, file);
    case PauseTimeout(k) =>
      if Waiting(g, k) {
        PausesUseTheirFile(sys, g, k);
        PauseTimeoutIsLocal(g, k, file);
      }
    case PauseEnd(k, saved) =>
      if Waiting(g, k) {
        PausesUseTheirFile(sys, g, k);
        PauseEndIsLocal(g, k, saved, file);
      }
    case ChunkArrives(_, _) =>
    case _ => WorkerIsLocal(sys, g, step, file);
  }
}
