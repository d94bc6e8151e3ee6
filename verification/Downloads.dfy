/** Resumable downloads: control calls, one worker per launch, resume files, crash and recovery.
    A step is the code that runs between two awaits. */
module Downloads {
  import opened Primitives
  import opened Sorting
  import Chunker
  import Pipeline

  const FLUSH_INTERVAL := 10

  datatype Status = Downloading | Paused | Completed | Failed

  datatype Download = Download(
    file: Bytes,
    total: nat,
    missing: seq<int>,
    completed: seq<int>,
    status: Status,
    password: Bytes)

  /** Not yet scheduled; waiting for the first chunk of `todo`; inside the final merge; done. */
  datatype Phase = Created | Fetching(todo: seq<Chunker.ChunkInfo>, sinceFlush: nat) | Merging | Ended

  /** `signalled` is the cancel event, `cancelled` a `task.cancel()` not yet delivered. */
  datatype Worker = Worker(file: Bytes, download: nat, phase: Phase, signalled: bool, cancelled: bool)

  /** A `pause_download` call that waits, or has waited, for its worker. */
  datatype Pause = Pause(file: Bytes, download: nat, worker: nat, returned: bool)

  datatype Fetch = Fetch(download: nat, file: Bytes, index: int)

  /** `objects` and `workers` are the download states and tasks in order of creation, and an index
      into them is a reference; both a task and its cancel event are known by the worker's index. */
  datatype State = State(
    objects: seq<Download>,
    workers: seq<Worker>,
    pauses: seq<Pause>,
    downloads: map<Bytes, nat>,
    tasks: map<Bytes, nat>,
    disk: map<Bytes, Download>,      // resume files
    store: Pipeline.Store,           // chunk files
    outputs: map<Bytes, Bytes>,      // merged files
    fetched: seq<Fetch>)             // history: which object received which chunk

  /** What stays fixed: the primitives and the manifest known for each file. */
  datatype System = System(suite: Suite, manifest: Bytes -> Chunker.FileManifest)

  /** Each `saved` says whether the resume file could be written. */
  datatype Step =
    | Start(file: Bytes, password: Bytes, saved: bool)
    | Resume(file: Bytes, password: Bytes, manifestKnown: bool)
    | PauseBegin(file: Bytes, saved: bool)
    | PauseTimeout(pause: nat)
    | PauseEnd(pause: nat, saved: bool)
    | ClearCompleted
    | Begin(worker: nat, saved: bool)
    | FetchOk(worker: nat, data: Bytes, saved: bool)
    | FetchFails(worker: nat, saved: bool)
    | MergeEnds(worker: nat, raises: bool, saved: bool, unlinks: bool)
    | Cancelled(worker: nat, saved: bool)
    | ChunkArrives(chunkHash: Bytes, data: Bytes)   // stored by another part of the node
    | Crash(listing: seq<Bytes>)                    // restart; the order in which resume files are found

  // ---- Pieces of steps ----

  function FreshDownload(sys: System, file: Bytes, password: Bytes): Download {
    var total := |sys.manifest(file).chunks|;
    Download(file, total, Indices(total), [], Downloading, password)
  }

  /** The password is not persisted. */
  function Persisted(d: Download): Download {
    d.(password := [])
  }

  function Save(g: State, id: nat, saved: bool): State
    requires id < |g.objects|
  {
    if saved then g.(disk := g.disk[g.objects[id].file := Persisted(g.objects[id])]) else g
  }

  function SetStatus(g: State, id: nat, status: Status): State
    requires id < |g.objects|
  {
    g.(objects := g.objects[id := g.objects[id].(status := status)])
  }

  /** `_downloads.get(file) or _load_resume(file)`. */
  function Existing(g: State, file: Bytes): Option<Download> {
    if file in g.downloads && g.downloads[file] < |g.objects| then Some(g.objects[g.downloads[file]])
    else if file in g.disk then Some(g.disk[file])
    else None
  }

  /** Where that object lives: a tracked one stays in place, a loaded one is new. */
  function Slot(g: State, file: Bytes): (id: nat)
    ensures id <= |g.objects|
  {
    if file in g.downloads && g.downloads[file] < |g.objects| then g.downloads[file] else |g.objects|
  }

  function Track(g: State, file: Bytes, id: nat, d: Download): State
    requires id <= |g.objects|
  {
    g.(objects := if id < |g.objects| then g.objects[id := d] else g.objects + [d],
       downloads := g.downloads[file := id])
  }

  function Launch(g: State, file: Bytes, id: nat): State {
    g.(workers := g.workers + [Worker(file, id, Created, false, false)], tasks := g.tasks[file := |g.workers|])
  }

  function SetWorker(g: State, w: nat, phase: Phase): State
    requires w < |g.workers|
  {
    g.(workers := g.workers[w := g.workers[w].(phase := phase)])
  }

  predicate Live(g: State, w: nat) {
    w < |g.workers| && g.workers[w].phase != Ended && g.workers[w].download < |g.objects|
  }

  /** A live worker whose next step is not a cancellation. */
  predicate Runs(g: State, w: nat) {
    Live(g, w) && !g.workers[w].cancelled
  }

  // ---- Control calls ----

  function AfterStart(sys: System, g: State, file: Bytes, password: Bytes, saved: bool): State {
    var existing := Existing(g, file);
    if existing.Some? && existing.value.status == Downloading then g
    else if existing.Some? && existing.value.missing != [] then
      var id := Slot(g, file);
      var d := existing.value.(status := Downloading, password := password);
      Launch(Save(Track(g, file, id, d), id, saved), file, id)
    else
      var id := |g.objects|;
      Launch(Save(Track(g, file, id, FreshDownload(sys, file, password)), id, saved), file, id)
  }

  function AfterResume(g: State, file: Bytes, password: Bytes, manifestKnown: bool): State {
    var existing := Existing(g, file);
    if existing.None? || existing.value.status == Downloading || !manifestKnown then g
    else
      var id := Slot(g, file);
      var d := existing.value.(status := Downloading, password := password);
      Launch(Track(g, file, id, d), file, id)
  }

  function FinishPause(g: State, file: Bytes, id: nat, saved: bool): State
    requires id < |g.objects|
  {
    var h := Save(SetStatus(g, id, Paused), id, saved);
    h.(tasks := h.tasks - {file})
  }

  function AfterPauseBegin(g: State, file: Bytes, saved: bool): State {
    if file !in g.downloads || g.downloads[file] >= |g.objects| then g
    else
      var id := g.downloads[file];
      if g.objects[id].status != Downloading then g
      else if file in g.tasks && g.tasks[file] < |g.workers| then
        var w := g.tasks[file];
        var h := g.(workers := g.workers[w := g.workers[w].(signalled := true)]);
        if g.workers[w].phase != Ended then h.(pauses := h.pauses + [Pause(file, id, w, false)])
        else FinishPause(h, file, id, saved)
      else FinishPause(g, file, id, saved)
  }

  predicate Waiting(g: State, k: nat) {
    k < |g.pauses| && !g.pauses[k].returned && g.pauses[k].worker < |g.workers| && g.pauses[k].download < |g.objects|
  }

  function AfterPauseTimeout(g: State, k: nat): State
    requires Waiting(g, k)
  {
    var w := g.pauses[k].worker;
    if g.workers[w].phase == Ended then g
    else g.(workers := g.workers[w := g.workers[w].(cancelled := true)])
  }

  function AfterPauseEnd(g: State, k: nat, saved: bool): State
    requires Waiting(g, k)
  {
    var p := g.pauses[k];
    FinishPause(g.(pauses := g.pauses[k := p.(returned := true)]), p.file, p.download, saved)
  }

  predicate Finished(g: State, file: Bytes) {
    file in g.downloads && g.downloads[file] < |g.objects| &&
    (g.objects[g.downloads[file]].status == Completed || g.objects[g.downloads[file]].status == Failed)
  }

  function AfterClear(g: State): State {
    g.(downloads := map f | f in g.downloads && !Finished(g, f) :: g.downloads[f],
       tasks := map f | f in g.tasks && !Finished(g, f) :: g.tasks[f])
  }

  // ---- The worker ----

  function Lists(missing: seq<int>): Chunker.ChunkInfo -> bool {
    (c: Chunker.ChunkInfo) => c.index in missing
  }

  /** The chunks to fetch: the manifest's, in index order, as far as they are missing. */
  function WorkList(sys: System, d: Download): seq<Chunker.ChunkInfo> {
    Filter(Lists(d.missing), Sort(Chunker.InfoByIndex, sys.manifest(d.file).chunks))
  }

  /** The head of the worker's loop, with `todo` still to fetch: the cancel event is looked at
      only before another fetch, and the merge reopens the output file. */
  function Advance(g: State, w: nat, todo: seq<Chunker.ChunkInfo>, sinceFlush: nat, saved: bool): State
    requires Live(g, w)
  {
    if todo == [] then
      var h := SetWorker(Save(g, g.workers[w].download, saved), w, Merging);
      h.(outputs := h.outputs - {g.workers[w].file})
    else if g.workers[w].signalled then SetWorker(g, w, Ended)
    else SetWorker(g, w, Fetching(todo, sinceFlush))
  }

  function MarkCompleted(d: Download, i: int): Download {
    d.(missing := RemoveFirst(d.missing, i), completed := if i in d.completed then d.completed else d.completed + [i])
  }

  /** A chunk arrives: it is cached unless present, marked, and every tenth is flushed. */
  function Receive(g: State, w: nat, data: Bytes, saved: bool): State
    requires Live(g, w) && g.workers[w].phase.Fetching? && g.workers[w].phase.todo != []
  {
    var id := g.workers[w].download;
    var c := g.workers[w].phase.todo[0];
    var h := g.(store := if c.chunkHash in g.store then g.store else g.store[c.chunkHash := data],
                objects := g.objects[id := MarkCompleted(g.objects[id], c.index)],
                fetched := g.fetched + [Fetch(id, g.workers[w].file, c.index)]);
    if g.workers[w].phase.sinceFlush + 1 >= FLUSH_INTERVAL then Save(h, id, saved) else h
  }

  function AfterFetchOk(g: State, w: nat, data: Bytes, saved: bool): State
    requires Live(g, w) && g.workers[w].phase.Fetching? && g.workers[w].phase.todo != []
  {
    var phase := g.workers[w].phase;
    Advance(Receive(g, w, data, saved), w, phase.todo[1..],
            if phase.sinceFlush + 1 >= FLUSH_INTERVAL then 0 else phase.sinceFlush + 1, saved)
  }

  /** The progress is saved before the status becomes an error. */
  function AfterFetchFails(g: State, w: nat, saved: bool): State
    requires Live(g, w)
  {
    var id := g.workers[w].download;
    SetWorker(SetStatus(Save(g, id, saved), id, Failed), w, Ended)
  }

  function MergeFailed(g: State, w: nat, saved: bool): State
    requires Live(g, w)
  {
    var id := g.workers[w].download;
    var h := SetWorker(Save(SetStatus(g, id, Failed), id, saved), w, Ended);
    h.(outputs := h.outputs - {g.workers[w].file})
  }

  /** The merged file is in place; the resume file is saved once more and unlinked. */
  function MergeDone(g: State, w: nat, merged: Bytes, saved: bool, unlinks: bool): State
    requires Live(g, w)
  {
    var file, id := g.workers[w].file, g.workers[w].download;
    var h := Save(SetStatus(g, id, Completed), id, saved);
    if file in h.disk && !unlinks then MergeFailed(h, w, saved)
    else SetWorker(h, w, Ended).(disk := h.disk - {file}, outputs := h.outputs[file := merged])
  }

  /** The store only ever gains chunks, so what the merge loaded is what it holds at the end. */
  function AfterMerge(sys: System, g: State, w: nat, raises: bool, saved: bool, unlinks: bool): State
    requires Live(g, w)
  {
    var file, id := g.workers[w].file, g.workers[w].download;
    var r := Pipeline.PipelineMerged(sys.suite, g.store, sys.manifest(file), g.objects[id].password);
    if raises || r.error.Some? || r.file.None? then MergeFailed(g, w, saved)
    else MergeDone(g, w, r.file.value, saved, unlinks)
  }

  /** A task cancelled before its first step never enters its try block. */
  function AfterCancelled(g: State, w: nat, saved: bool): State
    requires Live(g, w)
  {
    var id := g.workers[w].download;
    if g.workers[w].phase == Created then SetWorker(g, w, Ended)
    else SetWorker(Save(SetStatus(g, id, Paused), id, saved), w, Ended)
  }

  // ---- Crash and recovery ----

  function Recover(g: State, listing: seq<Bytes>): State
    decreases |listing|
  {
    if listing == [] then g
    else if listing[0] !in g.disk then Recover(g, listing[1..])
    else
      var d := g.disk[listing[0]].(status := Paused);
      Recover(Track(g, d.file, |g.objects|, d), listing[1..])
  }

  function AfterCrash(g: State, listing: seq<Bytes>): State {
    Recover(g.(workers := [], pauses := [], downloads := map[], tasks := map[]), listing)
  }

  /** The listing names every resume file once. */
  predicate ListsResumeFiles(g: State, listing: seq<Bytes>) {
    && (forall f :: f in g.disk ==> f in listing)
    && (forall f :: f in listing ==> f in g.disk)
    && (forall i, j :: 0 <= i < j < |listing| ==> listing[i] != listing[j])
  }

  // ---- Runs ----

  /** One atomic step; a step that is not enabled changes nothing. */
  function Next(sys: System, g: State, step: Step): State {
    match step
    case Start(file, password, saved) => AfterStart(sys, g, file, password, saved)
    case Resume(file, password, known) => AfterResume(g, file, password, known)
    case PauseBegin(file, saved) => AfterPauseBegin(g, file, saved)
    case PauseTimeout(k) => if Waiting(g, k) then AfterPauseTimeout(g, k) else g
    case PauseEnd(k, saved) =>
      if Waiting(g, k) && g.workers[g.pauses[k].worker].phase == Ended then AfterPauseEnd(g, k, saved) else g
    case ClearCompleted => AfterClear(g)
    case Begin(w, saved) =>
      if Runs(g, w) && g.workers[w].phase == Created
      then Advance(g, w, WorkList(sys, g.objects[g.workers[w].download]), 0, saved)
      else g
    case FetchOk(w, data, saved) =>
      if Runs(g, w) && g.workers[w].phase.Fetching? && g.workers[w].phase.todo != []
      then AfterFetchOk(g, w, data, saved)
      else g
    case FetchFails(w, saved) =>
      if Runs(g, w) && g.workers[w].phase.Fetching? then AfterFetchFails(g, w, saved) else g
    case MergeEnds(w, raises, saved, unlinks) =>
      if Runs(g, w) && g.workers[w].phase == Merging then AfterMerge(sys, g, w, raises, saved, unlinks) else g
    case Cancelled(w, saved) => if Live(g, w) && g.workers[w].cancelled then AfterCancelled(g, w, saved) else g
    case ChunkArrives(h, data) => if h in g.store then g else g.(store := g.store[h := data])
    case Crash(listing) => if ListsResumeFiles(g, listing) then AfterCrash(g, listing) else g
  }

  function Init(store: Pipeline.Store): State {
    State([], [], [], map[], map[], map[], store, map[], [])
  }

  function Run(sys: System, g: State, steps: seq<Step>): State
    decreases |steps|
  {
    if steps == [] then g else Run(sys, Next(sys, g, steps[0]), steps[1..])
  }

  lemma RunsOne(sys: System, g: State, step: Step, rest: seq<Step>)
    ensures Run(sys, g, [step] + rest) == Run(sys, Next(sys, g, step), rest)
  {
    assert ([step] + rest)[1..] == rest;
  }

  lemma RunsLast(sys: System, g: State, step: Step)
    ensures Run(sys, g, [step]) == Next(sys, g, step)
  {
    assert [step][1..] == [];
    assert Run(sys, Next(sys, g, step), []) == Next(sys, g, step);
  }

  /** What becomes of the fetches, and of the merge when all succeed. */
  function Outcomes(w: nat, todo: seq<Chunker.ChunkInfo>, load: Bytes -> Option<Bytes>): seq<Step> {
    if todo == [] then [MergeEnds(w, false, true, true)]
    else if load(todo[0].chunkHash) == None then [FetchFails(w, true)]
    else [FetchOk(w, load(todo[0].chunkHash).value, true)] + Outcomes(w, todo[1..], load)
  }

  lemma {:induction false} RunConcat(sys: System, g: State, a: seq<Step>, b: seq<Step>)
    ensures Run(sys, g, a + b) == Run(sys, Run(sys, g, a), b)
    decreases |a|
  {
    if a == [] {
      assert a + b == b;
    } else {
      assert (a + b)[1..] == a[1..] + b;
      RunConcat(sys, Next(sys, g, a[0]), a[1..], b);
    }
  }

  // ---- A worker that goes on ----

  /** The same task and object as before, up to the phase and the two lists. */
  ghost predicate SameJob(g: State, h: State, w: nat) {
    && Live(g, w) && Live(h, w)
    && h.workers[w] == g.workers[w].(phase := h.workers[w].phase)
    && h.objects[h.workers[w].download].file == g.objects[g.workers[w].download].file
    && h.objects[h.workers[w].download].password == g.objects[g.workers[w].download].password
  }

  lemma AdvanceGoesOn(g: State, w: nat, todo: seq<Chunker.ChunkInfo>, sinceFlush: nat)
    requires Live(g, w) && (todo == [] || !g.workers[w].signalled)
    ensures var h := Advance(g, w, todo, sinceFlush, true);
            && SameJob(g, h, w) && h.store == g.store
            && h.workers[w].phase == if todo == [] then Merging else Fetching(todo, sinceFlush)
  {
  }

  lemma SaveOnlyWritesDisk(g: State, id: nat, saved: bool)
    requires id < |g.objects|
    ensures Save(g, id, saved) == g.(disk := Save(g, id, saved).disk)
  {
  }

  lemma MarkingGoesOn(g: State, h: State, w: nat, i: int)
    requires Live(g, w) && h.workers == g.workers
    requires h.objects == g.objects[g.workers[w].download := MarkCompleted(g.objects[g.workers[w].download], i)]
    ensures SameJob(g, h, w)
  {
  }

  lemma ReceiveGoesOn(g: State, w: nat, data: Bytes)
    requires Live(g, w) && g.workers[w].phase.Fetching? && g.workers[w].phase.todo != []
    ensures var h := Receive(g, w, data, true);
            var c := g.workers[w].phase.todo[0];
            && SameJob(g, h, w)
            && h.store == if c.chunkHash in g.store then g.store else g.store[c.chunkHash := data]
  {
    var id, c := g.workers[w].download, g.workers[w].phase.todo[0];
    var h := Receive(g, w, data, true);
    var unsaved := g.(store := if c.chunkHash in g.store then g.store else g.store[c.chunkHash := data],
                      objects := g.objects[id := MarkCompleted(g.objects[id], c.index)],
                      fetched := g.fetched + [Fetch(id, g.workers[w].file, c.index)]);
    SaveOnlyWritesDisk(unsaved, id, true);
    assert h == unsaved || h == Save(unsaved, id, true);
    MarkingGoesOn(g, h, w, c.index);
  }

  lemma FetchOkGoesOn(g: State, w: nat, data: Bytes)
    requires Live(g, w) && g.workers[w].phase.Fetching? && g.workers[w].phase.todo != []
    requires |g.workers[w].phase.todo| == 1 || !g.workers[w].signalled
    ensures var h := AfterFetchOk(g, w, data, true);
            var c, rest := g.workers[w].phase.todo[0], g.workers[w].phase.todo[1..];
            && SameJob(g, h, w)
            && h.store == (if c.chunkHash in g.store then g.store else g.store[c.chunkHash := data])
            && (rest == [] ==> h.workers[w].phase == Merging)
            && (rest != [] ==> h.workers[w].phase.Fetching? && h.workers[w].phase.todo == rest)
  {
    var phase := g.workers[w].phase;
    ReceiveGoesOn(g, w, data);
    AdvanceGoesOn(Receive(g, w, data, true), w, phase.todo[1..],
                  if phase.sinceFlush + 1 >= FLUSH_INTERVAL then 0 else phase.sinceFlush + 1);
  }
}
