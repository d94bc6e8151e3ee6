/** What every step of every run keeps, whatever overlaps, fails or restarts: in memory and on disk
    missing and completed split the chunk numbers without duplicates, completed chunks were received
    for the file and are in the store, a worker's list covers what is missing, a completed download
    misses nothing that its manifest lists, and tasks, pauses, workers, tracked entries and resume
    files refer to objects and workers of their own file. */
module DownloadSafety {
  import opened Primitives
  import opened Sorting
  import opened Downloads
  import Chunker
  import Pipeline

  /** Missing and completed are duplicate-free and split 0..total-1. */
  ghost predicate Split(d: Download) {
    var split :=
      && NoDup(d.missing) && NoDup(d.completed)
      && (forall i :: i in d.missing ==> 0 <= i < d.total && i !in d.completed)
      && (forall i :: i in d.completed ==> 0 <= i < d.total)
      && (forall i :: 0 <= i < d.total ==> i in d.missing || i in d.completed);
    split
  }

  ghost predicate Held(sys: System, store: Pipeline.Store, file: Bytes, i: int) {
    exists c :: c in sys.manifest(file).chunks && c.index == i && c.chunkHash in store
  }

  /** Some object for the file received the chunk. */
  ghost predicate Received(fetched: seq<Fetch>, file: Bytes, i: int) {
    exists e :: e in fetched && e.file == file && e.index == i
  }

  ghost predicate Listed(chunks: seq<Chunker.ChunkInfo>, i: int) {
    exists c :: c in chunks && c.index == i
  }

  /** No missing chunk is one that the manifest lists. */
  ghost predicate NothingLeft(sys: System, d: Download) {
    forall i :: i in d.missing ==> !Listed(sys.manifest(d.file).chunks, i)
  }

  ghost predicate DownloadOk(sys: System, store: Pipeline.Store, fetched: seq<Fetch>, d: Download) {
    var ok :=
      && Split(d)
      && d.total == |sys.manifest(d.file).chunks|
      && (forall i :: i in d.completed ==> Held(sys, store, d.file, i) && Received(fetched, d.file, i))
      && (d.status == Completed ==> NothingLeft(sys, d));
    ok
  }

  ghost predicate WorkOk(sys: System, d: Download, todo: seq<Chunker.ChunkInfo>) {
    var ok :=
      && (forall c :: c in todo ==> c in sys.manifest(d.file).chunks && 0 <= c.index < d.total)
      && (forall i :: i in d.missing && Listed(sys.manifest(d.file).chunks, i) ==> Listed(todo, i));
    ok
  }

  ghost predicate WorkerOk(sys: System, d: Download, w: Worker) {
    && w.file == d.file
    && (w.phase.Fetching? ==> w.phase.todo != [] && w.phase.sinceFlush < FLUSH_INTERVAL && WorkOk(sys, d, w.phase.todo))
    && (w.phase == Merging ==> NothingLeft(sys, d))
  }

  ghost predicate FilesOk(objects: seq<Download>, downloads: map<Bytes, nat>) {
    forall f :: f in downloads ==> downloads[f] < |objects| && objects[downloads[f]].file == f
  }

  ghost predicate TasksOk(workers: seq<Worker>, tasks: map<Bytes, nat>) {
    forall f :: f in tasks ==> tasks[f] < |workers| && workers[tasks[f]].file == f
  }

  ghost predicate PauseOk(objects: seq<Download>, workers: seq<Worker>, p: Pause) {
    && p.worker < |workers| && workers[p.worker].file == p.file
    && p.download < |objects| && objects[p.download].file == p.file
  }

  ghost predicate PausesOk(objects: seq<Download>, workers: seq<Worker>, pauses: seq<Pause>) {
    forall k {:trigger PauseOk(objects, workers, pauses[k])} :: 0 <= k < |pauses| ==>
      PauseOk(objects, workers, pauses[k])
  }

  ghost predicate ObjectsOk(sys: System, store: Pipeline.Store, fetched: seq<Fetch>, objects: seq<Download>) {
    forall k {:trigger DownloadOk(sys, store, fetched, objects[k])} :: 0 <= k < |objects| ==>
      DownloadOk(sys, store, fetched, objects[k])
  }

  ghost predicate DiskOk(sys: System, store: Pipeline.Store, fetched: seq<Fetch>, disk: map<Bytes, Download>) {
    forall f {:trigger DownloadOk(sys, store, fetched, disk[f])} :: f in disk ==>
      disk[f].file == f && DownloadOk(sys, store, fetched, disk[f])
  }

  ghost predicate WorkerAt(sys: System, objects: seq<Download>, w: Worker) {
    w.download < |objects| && WorkerOk(sys, objects[w.download], w)
  }

  ghost predicate WorkersOk(sys: System, objects: seq<Download>, workers: seq<Worker>) {
    forall w {:trigger WorkerAt(sys, objects, workers[w])} :: 0 <= w < |workers| ==> WorkerAt(sys, objects, workers[w])
  }

  ghost predicate Safe(sys: System, g: State) {
    var safe :=
      && FilesOk(g.objects, g.downloads)
      && TasksOk(g.workers, g.tasks)
      && PausesOk(g.objects, g.workers, g.pauses)
      && ObjectsOk(sys, g.store, g.fetched, g.objects)
      && DiskOk(sys, g.store, g.fetched, g.disk)
      && WorkersOk(sys, g.objects, g.workers);
    safe
  }

  // ---- List facts ----

  lemma {:induction false} RemoveFacts<T>(s: seq<T>, i: T)
    requires NoDup(s)
    ensures NoDup(RemoveFirst(s, i))
    ensures forall j :: j in RemoveFirst(s, i) <==> j in s && j != i
    ensures |RemoveFirst(s, i)| == if i in s then |s| - 1 else |s|
  {
    if s != [] {
      assert s == [s[0]] + s[1..];
      assert s[0] !in s[1..];
      RemoveFacts(s[1..], i);
    }
  }

  lemma MarkKeepsSplit(d: Download, i: int)
    requires Split(d) && 0 <= i < d.total
    ensures Split(MarkCompleted(d, i))
    ensures forall j :: j in MarkCompleted(d, i).missing <==> j in d.missing && j != i
    ensures forall j :: j in MarkCompleted(d, i).completed <==> j in d.completed || j == i
  {
    RemoveFacts(d.missing, i);
  }

  lemma FreshIsOk(sys: System, store: Pipeline.Store, fetched: seq<Fetch>, file: Bytes, password: Bytes)
    ensures DownloadOk(sys, store, fetched, FreshDownload(sys, file, password))
  {
    var d := FreshDownload(sys, file, password);
    forall i | 0 <= i < d.total
      ensures i in d.missing
    {
      assert d.missing[i] == i;
    }
  }

  lemma WorkListIsOk(sys: System, d: Download)
    requires Split(d)
    ensures WorkOk(sys, d, WorkList(sys, d))
    ensures WorkList(sys, d) == [] ==> NothingLeft(sys, d)
    ensures forall c :: c in WorkList(sys, d) ==> c.index in d.missing
  {
    var chunks := sys.manifest(d.file).chunks;
    var ordered := Sort(Chunker.InfoByIndex, chunks);
    FilterMembers(Lists(d.missing), ordered);
    forall c
      ensures c in WorkList(sys, d) <==> c in chunks && c.index in d.missing
    {
      SortMember(Chunker.InfoByIndex, chunks, c);
    }
  }

  // ---- Pieces of steps keep Safe ----

  lemma ObjectIsOk(sys: System, g: State, id: nat)
    requires Safe(sys, g) && id < |g.objects|
    ensures DownloadOk(sys, g.store, g.fetched, g.objects[id])
  {
    assert DownloadOk(sys, g.store, g.fetched, g.objects[id]);
  }

  lemma WorkerIsOk(sys: System, g: State, w: nat)
    requires Safe(sys, g) && w < |g.workers|
    ensures WorkerAt(sys, g.objects, g.workers[w])
  {
    assert WorkerAt(sys, g.objects, g.workers[w]);
  }

  lemma ResumeFileIsOk(sys: System, g: State, file: Bytes)
    requires Safe(sys, g) && file in g.disk
    ensures DownloadOk(sys, g.store, g.fetched, g.disk[file]) && g.disk[file].file == file
  {
    assert DownloadOk(sys, g.store, g.fetched, g.disk[file]);
  }

  /** What an update of a download object may do under the workers that use it. */
  ghost predicate Refines(d: Download, d': Download) {
    d'.file == d.file && d'.total == d.total && forall i :: i in d'.missing ==> i in d.missing
  }

  lemma UpdateIsSafe(sys: System, g: State, id: nat, d: Download)
    requires Safe(sys, g) && id < |g.objects| && DownloadOk(sys, g.store, g.fetched, d) && Refines(g.objects[id], d)
    ensures Safe(sys, g.(objects := g.objects[id := d]))
  {
    var h := g.(objects := g.objects[id := d]);
    forall k | 0 <= k < |h.pauses|
      ensures PauseOk(h.objects, h.workers, h.pauses[k])
    {
      assert PauseOk(g.objects, g.workers, g.pauses[k]);
    }
    forall w | 0 <= w < |h.workers|
      ensures WorkerAt(sys, h.objects, h.workers[w])
    {
      WorkerIsOk(sys, g, w);
    }
  }

  lemma StatusIsSafe(sys: System, g: State, id: nat, status: Status)
    requires Safe(sys, g) && id < |g.objects|
    requires status == Completed ==> NothingLeft(sys, g.objects[id])
    ensures Safe(sys, SetStatus(g, id, status))
  {
    ObjectIsOk(sys, g, id);
    UpdateIsSafe(sys, g, id, g.objects[id].(status := status));
  }

  lemma SaveIsSafe(sys: System, g: State, id: nat, saved: bool)
    requires Safe(sys, g) && id < |g.objects|
    ensures Safe(sys, Save(g, id, saved))
  {
    ObjectIsOk(sys, g, id);
    assert DownloadOk(sys, g.store, g.fetched, Persisted(g.objects[id]));
    if saved {
      var disk := Save(g, id, saved).disk;
      forall f | f in disk
        ensures disk[f].file == f && DownloadOk(sys, g.store, g.fetched, disk[f])
      {
        if f != g.objects[id].file {
          ResumeFileIsOk(sys, g, f);
        }
      }
    }
  }

  lemma WorkerChangeIsSafe(sys: System, g: State, w: nat, worker: Worker)
    requires Safe(sys, g) && w < |g.workers|
    requires WorkerAt(sys, g.objects, worker) && worker.file == g.workers[w].file
    ensures Safe(sys, g.(workers := g.workers[w := worker]))
  {
    var h := g.(workers := g.workers[w := worker]);
    forall k | 0 <= k < |h.pauses|
      ensures PauseOk(h.objects, h.workers, h.pauses[k])
    {
      assert PauseOk(g.objects, g.workers, g.pauses[k]);
    }
    forall v | 0 <= v < |h.workers|
      ensures WorkerAt(sys, h.objects, h.workers[v])
    {
      assert v != w ==> h.workers[v] == g.workers[v];
    }
  }

  lemma PhaseIsSafe(sys: System, g: State, w: nat, phase: Phase)
    requires Safe(sys, g) && w < |g.workers|
    requires WorkerAt(sys, g.objects, g.workers[w].(phase := phase))
    ensures Safe(sys, SetWorker(g, w, phase))
  {
    WorkerChangeIsSafe(sys, g, w, g.workers[w].(phase := phase));
  }

  /** Chunks and history entries are only ever added. */
  lemma GrowthIsSafe(sys: System, g: State, store: Pipeline.Store, fetched: seq<Fetch>)
    requires Safe(sys, g)
    requires (forall h :: h in g.store ==> h in store) && (forall e :: e in g.fetched ==> e in fetched)
    ensures Safe(sys, g.(store := store, fetched := fetched))
  {
    forall d: Download | DownloadOk(sys, g.store, g.fetched, d)
      ensures DownloadOk(sys, store, fetched, d)
    {
      forall i | i in d.completed
        ensures Held(sys, store, d.file, i) && Received(fetched, d.file, i)
      {
        assert Held(sys, g.store, d.file, i) && Received(g.fetched, d.file, i);
      }
    }
    forall k | 0 <= k < |g.objects|
      ensures DownloadOk(sys, store, fetched, g.objects[k])
    {
      ObjectIsOk(sys, g, k);
    }
    forall f | f in g.disk
      ensures g.disk[f].file == f && DownloadOk(sys, store, fetched, g.disk[f])
    {
      ResumeFileIsOk(sys, g, f);
    }
  }

  lemma NewObjectIsSafe(sys: System, g: State, d: Download)
    requires Safe(sys, g) && DownloadOk(sys, g.store, g.fetched, d)
    ensures Safe(sys, g.(objects := g.objects + [d]))
  {
    var h := g.(objects := g.objects + [d]);
    forall k | 0 <= k < |h.pauses|
      ensures PauseOk(h.objects, h.workers, h.pauses[k])
    {
      assert PauseOk(g.objects, g.workers, g.pauses[k]);
    }
    forall w | 0 <= w < |h.workers|
      ensures WorkerAt(sys, h.objects, h.workers[w])
    {
      WorkerIsOk(sys, g, w);
      assert h.objects[h.workers[w].download] == g.objects[h.workers[w].download];
    }
    forall k | 0 <= k < |h.objects|
      ensures DownloadOk(sys, h.store, h.fetched, h.objects[k])
    {
      if k < |g.objects| {
        ObjectIsOk(sys, g, k);
      }
    }
  }

  lemma TrackIsSafe(sys: System, g: State, file: Bytes, id: nat, d: Download)
    requires Safe(sys, g) && id <= |g.objects| && DownloadOk(sys, g.store, g.fetched, d) && d.file == file
    requires id < |g.objects| ==> Refines(g.objects[id], d)
    ensures Safe(sys, Track(g, file, id, d))
  {
    if id < |g.objects| {
      UpdateIsSafe(sys, g, id, d);
    } else {
      NewObjectIsSafe(sys, g, d);
    }
  }

  lemma LaunchIsSafe(sys: System, g: State, file: Bytes, id: nat)
    requires Safe(sys, g) && id < |g.objects| && g.objects[id].file == file
    ensures Safe(sys, Launch(g, file, id))
  {
    var h := Launch(g, file, id);
    forall k | 0 <= k < |h.pauses|
      ensures PauseOk(h.objects, h.workers, h.pauses[k])
    {
      assert PauseOk(g.objects, g.workers, g.pauses[k]);
    }
    forall w | 0 <= w < |h.workers|
      ensures WorkerAt(sys, h.objects, h.workers[w])
    {
      if w < |g.workers| {
        WorkerIsOk(sys, g, w);
      }
    }
  }

  lemma FinishPauseIsSafe(sys: System, g: State, file: Bytes, id: nat, saved: bool)
    requires Safe(sys, g) && id < |g.objects|
    ensures Safe(sys, FinishPause(g, file, id, saved))
  {
    StatusIsSafe(sys, g, id, Paused);
    SaveIsSafe(sys, SetStatus(g, id, Paused), id, saved);
  }

  lemma AdvanceIsSafe(sys: System, g: State, w: nat, todo: seq<Chunker.ChunkInfo>, sinceFlush: nat, saved: bool)
    requires Safe(sys, g) && Live(g, w) && sinceFlush < FLUSH_INTERVAL
    requires WorkOk(sys, g.objects[g.workers[w].download], todo)
    ensures Safe(sys, Advance(g, w, todo, sinceFlush, saved))
  {
    var id := g.workers[w].download;
    WorkerIsOk(sys, g, w);
    if todo == [] {
      SaveIsSafe(sys, g, id, saved);
      PhaseIsSafe(sys, Save(g, id, saved), w, Merging);
    } else if g.workers[w].signalled {
      PhaseIsSafe(sys, g, w, Ended);
    } else {
      PhaseIsSafe(sys, g, w, Fetching(todo, sinceFlush));
    }
  }

  // ---- Steps keep Safe ----

  lemma ExistingIsOk(sys: System, g: State, file: Bytes, password: Bytes)
    requires Safe(sys, g) && Existing(g, file).Some?
    ensures var d := Existing(g, file).value.(status := Downloading, password := password);
            DownloadOk(sys, g.store, g.fetched, d) && d.file == file
    ensures var d := Existing(g, file).value.(status := Downloading, password := password);
            Slot(g, file) < |g.objects| ==> Refines(g.objects[Slot(g, file)], d)
  {
    if file in g.downloads {
      ObjectIsOk(sys, g, g.downloads[file]);
    } else {
      ResumeFileIsOk(sys, g, file);
    }
  }

  lemma OpeningIsSafe(sys: System, g: State, file: Bytes, id: nat, d: Download, saved: bool)
    requires Safe(sys, g) && id <= |g.objects| && DownloadOk(sys, g.store, g.fetched, d) && d.file == file
    requires id < |g.objects| ==> Refines(g.objects[id], d)
    ensures Safe(sys, Launch(Save(Track(g, file, id, d), id, saved), file, id))
  {
    TrackIsSafe(sys, g, file, id, d);
    SaveIsSafe(sys, Track(g, file, id, d), id, saved);
    LaunchIsSafe(sys, Save(Track(g, file, id, d), id, saved), file, id);
  }

  lemma StartIsSafe(sys: System, g: State, file: Bytes, password: Bytes, saved: bool)
    requires Safe(sys, g)
    ensures Safe(sys, AfterStart(sys, g, file, password, saved))
  {
    var existing := Existing(g, file);
    if existing.Some? && existing.value.status != Downloading && existing.value.missing != [] {
      ExistingIsOk(sys, g, file, password);
      OpeningIsSafe(sys, g, file, Slot(g, file), existing.value.(status := Downloading, password := password), saved);
    } else if existing.None? || existing.value.status != Downloading {
      FreshIsOk(sys, g.store, g.fetched, file, password);
      OpeningIsSafe(sys, g, file, |g.objects|, FreshDownload(sys, file, password), saved);
    }
  }

  lemma ResumeIsSafe(sys: System, g: State, file: Bytes, password: Bytes, known: bool)
    requires Safe(sys, g)
    ensures Safe(sys, AfterResume(g, file, password, known))
  {
    var existing := Existing(g, file);
    if existing.Some? && existing.value.status != Downloading {
      ExistingIsOk(sys, g, file, password);
      OpeningIsSafe(sys, g, file, Slot(g, file), existing.value.(status := Downloading, password := password), false);
    }
  }

  lemma SignalIsSafe(sys: System, g: State, w: nat, signalled: bool, cancelled: bool)
    requires Safe(sys, g) && w < |g.workers|
    ensures Safe(sys, g.(workers := g.workers[w := g.workers[w].(signalled := signalled, cancelled := cancelled)]))
  {
    WorkerIsOk(sys, g, w);
    WorkerChangeIsSafe(sys, g, w, g.workers[w].(signalled := signalled, cancelled := cancelled));
  }

  lemma WaitingIsSafe(sys: System, g: State, p: Pause)
    requires Safe(sys, g) && PauseOk(g.objects, g.workers, p)
    ensures Safe(sys, g.(pauses := g.pauses + [p]))
  {
    var h := g.(pauses := g.pauses + [p]);
    forall k | 0 <= k < |h.pauses|
      ensures PauseOk(h.objects, h.workers, h.pauses[k])
    {
      assert k < |g.pauses| ==> PauseOk(g.objects, g.workers, g.pauses[k]);
    }
  }

  lemma PauseBeginIsSafe(sys: System, g: State, file: Bytes, saved: bool)
    requires Safe(sys, g)
    ensures Safe(sys, AfterPauseBegin(g, file, saved))
  {
    if file in g.downloads && file in g.tasks {
      var w := g.tasks[file];
      var h := g.(workers := g.workers[w := g.workers[w].(signalled := true)]);
      SignalIsSafe(sys, g, w, true, g.workers[w].cancelled);
      FinishPauseIsSafe(sys, h, file, g.downloads[file], saved);
      WaitingIsSafe(sys, h, Pause(file, g.downloads[file], w, false));
    } else if file in g.downloads {
      FinishPauseIsSafe(sys, g, file, g.downloads[file], saved);
    }
  }

  lemma PauseEndIsSafe(sys: System, g: State, k: nat, saved: bool)
    requires Safe(sys, g) && Waiting(g, k)
    ensures Safe(sys, AfterPauseEnd(g, k, saved))
  {
    var p := g.pauses[k];
    var h := g.(pauses := g.pauses[k := p.(returned := true)]);
    forall j | 0 <= j < |h.pauses|
      ensures PauseOk(h.objects, h.workers, h.pauses[j])
    {
      assert PauseOk(g.objects, g.workers, g.pauses[j]);
    }
    assert Safe(sys, h);
    FinishPauseIsSafe(sys, h, p.file, p.download, saved);
  }

  lemma MarkingIsOk(sys: System, store: Pipeline.Store, fetched: seq<Fetch>, d: Download, c: Chunker.ChunkInfo)
    requires DownloadOk(sys, store, fetched, d) && c in sys.manifest(d.file).chunks && 0 <= c.index < d.total
    requires c.chunkHash in store && Received(fetched, d.file, c.index)
    ensures DownloadOk(sys, store, fetched, MarkCompleted(d, c.index)) && Refines(d, MarkCompleted(d, c.index))
  {
    MarkKeepsSplit(d, c.index);
    forall i | i in MarkCompleted(d, c.index).completed
      ensures Held(sys, store, d.file, i) && Received(fetched, d.file, i)
    {
    }
  }

  /** The worker holds its first chunk: what the rest of the step may use. */
  lemma FirstChunk(sys: System, g: State, w: nat)
    requires Safe(sys, g) && Live(g, w) && g.workers[w].phase.Fetching?
    ensures g.workers[w].phase.todo != [] && g.workers[w].phase.sinceFlush < FLUSH_INTERVAL
    ensures var d := g.objects[g.workers[w].download];
            var c := g.workers[w].phase.todo[0];
            && g.workers[w].file == d.file && Split(d)
            && WorkOk(sys, d, g.workers[w].phase.todo)
            && c in sys.manifest(d.file).chunks && 0 <= c.index < d.total
  {
    WorkerIsOk(sys, g, w);
    ObjectIsOk(sys, g, g.workers[w].download);
    assert g.workers[w].phase.todo[0] in g.workers[w].phase.todo;
  }

  lemma ReceiveLeavesWork(sys: System, g: State, w: nat, data: Bytes, saved: bool)
    requires Safe(sys, g) && Live(g, w) && g.workers[w].phase.Fetching?
    ensures g.workers[w].phase.todo != [] && g.workers[w].phase.sinceFlush < FLUSH_INTERVAL
    ensures var h := Receive(g, w, data, saved);
            && Live(h, w) && h.workers == g.workers
            && WorkOk(sys, h.objects[g.workers[w].download], g.workers[w].phase.todo[1..])
  {
    FirstChunk(sys, g, w);
    var d, todo := g.objects[g.workers[w].download], g.workers[w].phase.todo;
    MarkKeepsSplit(d, todo[0].index);
    TailStaysOk(sys, d, MarkCompleted(d, todo[0].index), todo);
  }

  lemma MarkingIsSafe(sys: System, g: State, id: nat, c: Chunker.ChunkInfo)
    requires Safe(sys, g) && id < |g.objects| && c.chunkHash in g.store
    requires c in sys.manifest(g.objects[id].file).chunks && 0 <= c.index < g.objects[id].total
    requires Received(g.fetched, g.objects[id].file, c.index)
    ensures Safe(sys, g.(objects := g.objects[id := MarkCompleted(g.objects[id], c.index)]))
  {
    ObjectIsOk(sys, g, id);
    MarkingIsOk(sys, g.store, g.fetched, g.objects[id], c);
    UpdateIsSafe(sys, g, id, MarkCompleted(g.objects[id], c.index));
  }

  lemma ReceiveIsSafe(sys: System, g: State, w: nat, data: Bytes, saved: bool)
    requires Safe(sys, g) && Live(g, w) && g.workers[w].phase.Fetching? && g.workers[w].phase.todo != []
    ensures Safe(sys, Receive(g, w, data, saved))
  {
    FirstChunk(sys, g, w);
    var id, c := g.workers[w].download, g.workers[w].phase.todo[0];
    var entry := Fetch(id, g.workers[w].file, c.index);
    var h := g.(store := if c.chunkHash in g.store then g.store else g.store[c.chunkHash := data],
                fetched := g.fetched + [entry]);
    GrowthIsSafe(sys, g, h.store, h.fetched);
    assert entry in h.fetched;
    MarkingIsSafe(sys, h, id, c);
    SaveIsSafe(sys, h.(objects := h.objects[id := MarkCompleted(h.objects[id], c.index)]), id, saved);
  }

  lemma TailStaysOk(sys: System, d: Download, d': Download, todo: seq<Chunker.ChunkInfo>)
    requires todo != [] && WorkOk(sys, d, todo) && d'.file == d.file && d'.total == d.total
    requires forall i :: i in d'.missing <==> i in d.missing && i != todo[0].index
    ensures WorkOk(sys, d', todo[1..])
  {
    forall i | i in d'.missing && Listed(sys.manifest(d.file).chunks, i)
      ensures Listed(todo[1..], i)
    {
      var c :| c in todo && c.index == i;
      assert c in todo[1..];
    }
  }

  lemma FetchOkIsSafe(sys: System, g: State, w: nat, data: Bytes, saved: bool)
    requires Safe(sys, g) && Live(g, w) && g.workers[w].phase.Fetching? && g.workers[w].phase.todo != []
    ensures Safe(sys, AfterFetchOk(g, w, data, saved))
  {
    ReceiveLeavesWork(sys, g, w, data, saved);
    ReceiveIsSafe(sys, g, w, data, saved);
    var phase := g.workers[w].phase;
    AdvanceIsSafe(sys, Receive(g, w, data, saved), w, phase.todo[1..],
                  if phase.sinceFlush + 1 >= FLUSH_INTERVAL then 0 else phase.sinceFlush + 1, saved);
  }

  lemma FetchFailsIsSafe(sys: System, g: State, w: nat, saved: bool)
    requires Safe(sys, g) && Live(g, w)
    ensures Safe(sys, AfterFetchFails(g, w, saved))
  {
    var id := g.workers[w].download;
    WorkerIsOk(sys, g, w);
    SaveIsSafe(sys, g, id, saved);
    StatusIsSafe(sys, Save(g, id, saved), id, Failed);
    PhaseIsSafe(sys, SetStatus(Save(g, id, saved), id, Failed), w, Ended);
  }

  lemma MergeFailedIsSafe(sys: System, g: State, w: nat, saved: bool)
    requires Safe(sys, g) && Live(g, w)
    ensures Safe(sys, MergeFailed(g, w, saved))
  {
    var id := g.workers[w].download;
    WorkerIsOk(sys, g, w);
    StatusIsSafe(sys, g, id, Failed);
    SaveIsSafe(sys, SetStatus(g, id, Failed), id, saved);
    PhaseIsSafe(sys, Save(SetStatus(g, id, Failed), id, saved), w, Ended);
  }

  lemma CompletedIsSafe(sys: System, g: State, w: nat, saved: bool)
    requires Safe(sys, g) && Live(g, w) && g.workers[w].phase == Merging
    ensures var h := Save(SetStatus(g, g.workers[w].download, Completed), g.workers[w].download, saved);
            Safe(sys, h) && Safe(sys, SetWorker(h, w, Ended)) && Live(h, w)
  {
    var id := g.workers[w].download;
    WorkerIsOk(sys, g, w);
    StatusIsSafe(sys, g, id, Completed);
    SaveIsSafe(sys, SetStatus(g, id, Completed), id, saved);
    var h := Save(SetStatus(g, id, Completed), id, saved);
    WorkerIsOk(sys, h, w);
    PhaseIsSafe(sys, h, w, Ended);
  }

  lemma ForgettingIsSafe(sys: System, g: State, file: Bytes, outputs: map<Bytes, Bytes>)
    requires Safe(sys, g)
    ensures Safe(sys, g.(disk := g.disk - {file}, outputs := outputs))
  {
    var disk := g.disk - {file};
    forall f | f in disk
      ensures disk[f].file == f && DownloadOk(sys, g.store, g.fetched, disk[f])
    {
      ResumeFileIsOk(sys, g, f);
    }
  }

  lemma MergeIsSafe(sys: System, g: State, w: nat, raises: bool, saved: bool, unlinks: bool)
    requires Safe(sys, g) && Live(g, w) && g.workers[w].phase == Merging
    ensures Safe(sys, AfterMerge(sys, g, w, raises, saved, unlinks))
  {
    var file, id := g.workers[w].file, g.workers[w].download;
    var r := Pipeline.PipelineMerged(sys.suite, g.store, sys.manifest(file), g.objects[id].password);
    if raises || r.error.Some? || r.file.None? {
      MergeFailedIsSafe(sys, g, w, saved);
    } else {
      CompletedIsSafe(sys, g, w, saved);
      var h := Save(SetStatus(g, id, Completed), id, saved);
      if file in h.disk && !unlinks {
        MergeFailedIsSafe(sys, h, w, saved);
      } else {
        ForgettingIsSafe(sys, SetWorker(h, w, Ended), file, h.outputs[file := r.file.value]);
      }
    }
  }

  lemma CancelledIsSafe(sys: System, g: State, w: nat, saved: bool)
    requires Safe(sys, g) && Live(g, w)
    ensures Safe(sys, AfterCancelled(g, w, saved))
  {
    var id := g.workers[w].download;
    WorkerIsOk(sys, g, w);
    PhaseIsSafe(sys, g, w, Ended);
    StatusIsSafe(sys, g, id, Paused);
    SaveIsSafe(sys, SetStatus(g, id, Paused), id, saved);
    PhaseIsSafe(sys, Save(SetStatus(g, id, Paused), id, saved), w, Ended);
  }

  lemma {:induction false} RecoverIsSafe(sys: System, g: State, listing: seq<Bytes>)
    requires Safe(sys, g)
    ensures Safe(sys, Recover(g, listing))
    decreases |listing|
  {
    if listing != [] {
      if listing[0] in g.disk {
        ResumeFileIsOk(sys, g, listing[0]);
        var d := g.disk[listing[0]].(status := Paused);
        TrackIsSafe(sys, g, d.file, |g.objects|, d);
        RecoverIsSafe(sys, Track(g, d.file, |g.objects|, d), listing[1..]);
      } else {
        RecoverIsSafe(sys, g, listing[1..]);
      }
    }
  }

  lemma ControlIsSafe(sys: System, g: State, step: Step)
    requires Safe(sys, g)
    requires step.Start? || step.Resume? || step.PauseBegin? || step.PauseTimeout? || step.PauseEnd? ||
             step.ClearCompleted?
    ensures Safe(sys, Next(sys, g, step))
  {
    match step
    case Start(file, password, saved) => StartIsSafe(sys, g, file, password, saved);
    case Resume(file, password, known) => ResumeIsSafe(sys, g, file, password, known);
    case PauseBegin(file, saved) => PauseBeginIsSafe(sys, g, file, saved);
    case PauseEnd(k, saved) => if Waiting(g, k) { PauseEndIsSafe(sys, g, k, saved); }
    case PauseTimeout(k) =>
      if Waiting(g, k) {
        SignalIsSafe(sys, g, g.pauses[k].worker, g.workers[g.pauses[k].worker].signalled, true);
      }
    case ClearCompleted =>
  }

  lemma StepIsSafe(sys: System, g: State, step: Step)
    requires Safe(sys, g)
    ensures Safe(sys, Next(sys, g, step))
  {
    match step
    case Begin(w, saved) =>
      if Live(g, w) {
        var d := g.objects[g.workers[w].download];
        ObjectIsOk(sys, g, g.workers[w].download);
        WorkListIsOk(sys, d);
        AdvanceIsSafe(sys, g, w, WorkList(sys, d), 0, saved);
      }
    case FetchOk(w, data, saved) =>
      if Live(g, w) && g.workers[w].phase.Fetching? && g.workers[w].phase.todo != [] {
        FetchOkIsSafe(sys, g, w, data, saved);
      }
    case FetchFails(w, saved) => if Live(g, w) { FetchFailsIsSafe(sys, g, w, saved); }
    case MergeEnds(w, raises, saved, unlinks) =>
      if Live(g, w) && g.workers[w].phase == Merging { MergeIsSafe(sys, g, w, raises, saved, unlinks); }
    case Cancelled(w, saved) => if Live(g, w) { CancelledIsSafe(sys, g, w, saved); }
    case ChunkArrives(h, data) => GrowthIsSafe(sys, g, g.store[h := data], g.fetched);
    case Crash(listing) =>
      RecoverIsSafe(sys, g.(workers := [], pauses := [], downloads := map[], tasks := map[]), listing);
    case _ => ControlIsSafe(sys, g, step);
  }

  lemma {:induction false} RunsAreSafe(sys: System, g: State, steps: seq<Step>)
    requires Safe(sys, g)
    ensures Safe(sys, Run(sys, g, steps))
    decreases |steps|
  {
    if steps != [] {
      StepIsSafe(sys, g, steps[0]);
      RunsAreSafe(sys, Next(sys, g, steps[0]), steps[1..]);
    }
  }

  /** Over every run, in memory and on disk: the two lists split the chunk numbers, every
      completed chunk was received for the file and is in the store, and what is marked completed
      misses no listed chunk. */
  lemma EveryDownloadIsConsistent(sys: System, store: Pipeline.Store, steps: seq<Step>, d: Download)
    requires var g := Run(sys, Init(store), steps);
             d in g.objects || exists f :: f in g.disk && g.disk[f] == d
    ensures Split(d) && |d.missing| + |d.completed| == d.total == |sys.manifest(d.file).chunks|
    ensures var g := Run(sys, Init(store), steps);
            forall i :: i in d.completed ==> Held(sys, g.store, d.file, i) && Received(g.fetched, d.file, i)
    ensures d.status == Completed && (forall i :: 0 <= i < d.total ==> Listed(sys.manifest(d.file).chunks, i)) ==>
              d.missing == []
  {
    var g := Run(sys, Init(store), steps);
    RunsAreSafe(sys, Init(store), steps);
    assert DownloadOk(sys, g.store, g.fetched, d);
    SplitCounts(d);
    if d.status == Completed && d.missing != [] {
      assert d.missing[0] in d.missing;
      assert !Listed(sys.manifest(d.file).chunks, d.missing[0]);
    }
  }

  lemma SplitCounts(d: Download)
    requires Split(d)
    ensures |d.missing| + |d.completed| == d.total
  {
    var both := d.missing + d.completed;
    var all := Indices(d.total);
    forall i | i in all
      ensures 0 <= i < d.total
    {
    }
    forall i | 0 <= i < d.total
      ensures i in all
    {
      assert all[i] == i;
    }
    assert NoDup(both) by {
      forall i, j | 0 <= i < j < |both|
        ensures both[i] != both[j]
      {
        if i < |d.missing| <= j {
          assert both[i] in d.missing && both[j] in d.completed;
        }
      }
    }
    SameMembersSameLength(both, all);
  }

  lemma MembersOfNothing<T>(s: seq<T>)
    ensures s == [] || exists x :: x in s
  {
    if s != [] {
      assert s[0] in s;
    }
  }

  lemma {:induction false} SameMembersSameLength<T>(a: seq<T>, b: seq<T>)
    requires NoDup(a) && NoDup(b) && forall i :: i in a <==> i in b
    ensures |a| == |b|
    decreases |a|
  {
    if a == [] {
      MembersOfNothing(b);
    } else {
      assert a == [a[0]] + a[1..];
      assert a[0] in a && a[0] !in a[1..];
      RemoveFacts(b, a[0]);
      SameMembersSameLength(a[1..], RemoveFirst(b, a[0]));
    }
  }
}
