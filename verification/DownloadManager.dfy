/** The download manager as an object: each method is one step of the state machine. */
module DownloadManager {
  import opened Primitives
  import opened Sorting
  import opened Downloads
  import Chunker
  import Pipeline

  class DownloadManager {
    const sys: System
    var objects: seq<Download>
    var workers: seq<Worker>
    var pauses: seq<Pause>
    var downloads: map<Bytes, nat>
    var tasks: map<Bytes, nat>          // a task and its cancel event are entered and dropped together
    var disk: map<Bytes, Download>
    var store: Pipeline.Store
    var outputs: map<Bytes, Bytes>
    var fetched: seq<Fetch>             // history of received chunks

    function View(): State
      reads this
    {
      State(objects, workers, pauses, downloads, tasks, disk, store, outputs, fetched)
    }

    /** A restart over what the previous run left on disk. */
    constructor (sys: System, disk: map<Bytes, Download>, store: Pipeline.Store, outputs: map<Bytes, Bytes>,
                 listing: seq<Bytes>)
      ensures this.sys == sys
      ensures View() == Recover(State([], [], [], map[], map[], disk, store, outputs, []), listing)
    {
      this.sys := sys;
      objects, workers, pauses, downloads, tasks := [], [], [], map[], map[];
      this.disk, this.store, this.outputs, fetched := disk, store, outputs, [];
      new;
      RecoverResumeFiles(listing);
    }

    method RecoverResumeFiles(listing: seq<Bytes>)
      modifies this
      ensures View() == Recover(old(View()), listing)
    {
      for i := 0 to |listing|
        invariant Recover(View(), listing[i..]) == Recover(old(View()), listing)
      {
        assert listing[i..][1..] == listing[i + 1..];
        if listing[i] in disk {
          var state := disk[listing[i]].(status := Paused);
          objects := objects + [state];
          downloads := downloads[state.file := |objects| - 1];
        }
      }
    }

    method SaveResume(id: nat, saved: bool)
      requires id < |objects|
      modifies this`disk
      ensures View() == Save(old(View()), id, saved)
    {
      if saved {
        disk := disk[objects[id].file := objects[id].(password := [])];
      }
    }

    method SetStatus(id: nat, status: Status)
      requires id < |objects|
      modifies this`objects
      ensures View() == Downloads.SetStatus(old(View()), id, status)
    {
      objects := objects[id := objects[id].(status := status)];
    }

    /** `_downloads.get(file) or _load_resume(file)`, and the place of that object. */
    method FindExisting(file: Bytes) returns (state: Option<Download>, id: nat)
      ensures state == Existing(View(), file) && id == Slot(View(), file)
    {
      if file in downloads && downloads[file] < |objects| {
        return Some(objects[downloads[file]]), downloads[file];
      }
      id := |objects|;
      state := if file in disk then Some(disk[file]) else None;
    }

    method TrackObject(file: Bytes, id: nat, state: Download)
      requires id <= |objects|
      modifies this`objects, this`downloads
      ensures View() == Track(old(View()), file, id, state)
    {
      if id < |objects| {
        objects := objects[id := state];
      } else {
        objects := objects + [state];
      }
      downloads := downloads[file := id];
    }

    method LaunchWorker(file: Bytes, id: nat)
      modifies this`workers, this`tasks
      ensures View() == Launch(old(View()), file, id)
    {
      workers := workers + [Worker(file, id, Created, false, false)];
      tasks := tasks[file := |workers| - 1];
    }

    method StartDownload(file: Bytes, password: Bytes, saved: bool)
      modifies this
      ensures View() == AfterStart(sys, old(View()), file, password, saved)
    {
      var existing, slot := FindExisting(file);
      if existing.Some? && existing.value.status == Downloading {
        return;
      }
      var id, state;
      if existing.Some? && existing.value.missing != [] {
        id, state := slot, existing.value.(status := Downloading, password := password);
      } else {
        var total := |sys.manifest(file).chunks|;
        id, state := |objects|, Download(file, total, Indices(total), [], Downloading, password);
      }
      TrackObject(file, id, state);
      SaveResume(id, saved);
      LaunchWorker(file, id);
    }

    method ResumeDownload(file: Bytes, password: Bytes, manifestKnown: bool)
      modifies this
      ensures View() == AfterResume(old(View()), file, password, manifestKnown)
    {
      var existing, slot := FindExisting(file);
      if existing == None || existing.value.status == Downloading || !manifestKnown {
        return;
      }
      TrackObject(file, slot, existing.value.(status := Downloading, password := password));
      LaunchWorker(file, slot);
    }

    method MarkPaused(file: Bytes, id: nat, saved: bool)
      requires id < |objects|
      modifies this`objects, this`disk, this`tasks
      ensures View() == FinishPause(old(View()), file, id, saved)
    {
      SetStatus(id, Paused);
      SaveResume(id, saved);
      tasks := tasks - {file};
    }

    /** Up to its wait: the call either waits for a live worker or finishes at once. */
    method PauseDownload(file: Bytes, saved: bool)
      modifies this
      ensures View() == AfterPauseBegin(old(View()), file, saved)
    {
      if file !in downloads || downloads[file] >= |objects| || objects[downloads[file]].status != Downloading {
        return;
      }
      var id := downloads[file];
      if file in tasks && tasks[file] < |workers| {
        var w := tasks[file];
        workers := workers[w := workers[w].(signalled := true)];
        if workers[w].phase != Ended {
          pauses := pauses + [Pause(file, id, w, false)];
          return;
        }
      }
      MarkPaused(file, id, saved);
    }

    method PauseTimesOut(k: nat)
      requires Waiting(View(), k)
      modifies this`workers
      ensures View() == AfterPauseTimeout(old(View()), k)
    {
      var w := pauses[k].worker;
      if workers[w].phase != Ended {
        workers := workers[w := workers[w].(cancelled := true)];
      }
    }

    method PauseReturns(k: nat, saved: bool)
      requires Waiting(View(), k) && workers[pauses[k].worker].phase == Ended
      modifies this
      ensures View() == AfterPauseEnd(old(View()), k, saved)
    {
      var p := pauses[k];
      pauses := pauses[k := p.(returned := true)];
      MarkPaused(p.file, p.download, saved);
    }

    method ClearCompleted()
      modifies this`downloads, this`tasks
      ensures View() == AfterClear(old(View()))
    {
      ghost var before := View();
      var toRemove := set f | f in downloads && downloads[f] < |objects| &&
                              (objects[downloads[f]].status == Completed || objects[downloads[f]].status == Failed);
      while toRemove != {}
        invariant View() == before.(downloads := downloads, tasks := tasks)
        invariant Dropping(before, toRemove, before.downloads, downloads)
        invariant Dropping(before, toRemove, before.tasks, tasks)
        decreases |toRemove|
      {
        var f :| f in toRemove;
        DropOne(before, toRemove, before.downloads, downloads, f);
        DropOne(before, toRemove, before.tasks, tasks, f);
        downloads := downloads - {f};
        tasks := tasks - {f};
        toRemove := toRemove - {f};
      }
      AllDropped(before, downloads, tasks);
    }

    // ---- The worker ----

    method ChunksToFetch(state: Download) returns (todo: seq<Chunker.ChunkInfo>)
      ensures todo == WorkList(sys, state)
    {
      var ordered := Sort(Chunker.InfoByIndex, sys.manifest(state.file).chunks);
      todo := [];
      for i := 0 to |ordered|
        invariant todo + Filter(Lists(state.missing), ordered[i..]) == WorkList(sys, state)
      {
        assert ordered[i..][1..] == ordered[i + 1..];
        if ordered[i].index in state.missing {
          assert todo + ([ordered[i]] + Filter(Lists(state.missing), ordered[i + 1..])) ==
                 (todo + [ordered[i]]) + Filter(Lists(state.missing), ordered[i + 1..]);
          todo := todo + [ordered[i]];
        }
      }
    }

    method MoveWorker(w: nat, phase: Phase)
      requires w < |workers|
      modifies this`workers
      ensures View() == SetWorker(old(View()), w, phase)
    {
      workers := workers[w := workers[w].(phase := phase)];
    }

    method GoOn(w: nat, todo: seq<Chunker.ChunkInfo>, sinceFlush: nat, saved: bool)
      requires Live(View(), w)
      modifies this
      ensures View() == Advance(old(View()), w, todo, sinceFlush, saved)
    {
      if todo == [] {
        SaveResume(workers[w].download, saved);
        MoveWorker(w, Merging);
        outputs := outputs - {workers[w].file};
      } else if workers[w].signalled {
        MoveWorker(w, Ended);
      } else {
        MoveWorker(w, Fetching(todo, sinceFlush));
      }
    }

    method BeginWorker(w: nat, saved: bool)
      requires Live(View(), w)
      modifies this
      ensures View() == Advance(old(View()), w, WorkList(sys, old(objects[workers[w].download])), 0, saved)
    {
      var todo := ChunksToFetch(objects[workers[w].download]);
      GoOn(w, todo, 0, saved);
    }

    method RemoveOne(s: seq<int>, i: int) returns (rest: seq<int>)
      ensures rest == RemoveFirst(s, i)
    {
      var k := 0;
      while k < |s| && s[k] != i
        invariant 0 <= k <= |s|
        invariant s[..k] + RemoveFirst(s[k..], i) == RemoveFirst(s, i)
      {
        assert s[k..][1..] == s[k + 1..];
        assert s[..k] + ([s[k]] + RemoveFirst(s[k + 1..], i)) == s[..k + 1] + RemoveFirst(s[k + 1..], i);
        k := k + 1;
      }
      if k == |s| {
        assert s[..k] == s;
        return s;
      }
      assert s[k..][1..] == s[k + 1..];
      return s[..k] + s[k + 1..];
    }

    method MarkChunk(id: nat, index: int)
      requires id < |objects|
      modifies this`objects
      ensures View() == old(View()).(objects := old(objects)[id := MarkCompleted(old(objects[id]), index)])
    {
      var missing := RemoveOne(objects[id].missing, index);
      var completed := objects[id].completed;
      if index !in completed {
        completed := completed + [index];
      }
      objects := objects[id := objects[id].(missing := missing, completed := completed)];
    }

    method ReceiveChunk(w: nat, data: Bytes, saved: bool)
      requires Live(View(), w) && workers[w].phase.Fetching? && workers[w].phase.todo != []
      modifies this
      ensures View() == Receive(old(View()), w, data, saved)
    {
      var id, c := workers[w].download, workers[w].phase.todo[0];
      if c.chunkHash !in store {
        store := store[c.chunkHash := data];
      }
      MarkChunk(id, c.index);
      fetched := fetched + [Fetch(id, workers[w].file, c.index)];
      if workers[w].phase.sinceFlush + 1 >= FLUSH_INTERVAL {
        SaveResume(id, saved);
      }
    }

    method ChunkFetched(w: nat, data: Bytes, saved: bool)
      requires Live(View(), w) && workers[w].phase.Fetching? && workers[w].phase.todo != []
      modifies this
      ensures View() == AfterFetchOk(old(View()), w, data, saved)
    {
      var phase := workers[w].phase;
      ReceiveChunk(w, data, saved);
      var sinceFlush := if phase.sinceFlush + 1 >= FLUSH_INTERVAL then 0 else phase.sinceFlush + 1;
      GoOn(w, phase.todo[1..], sinceFlush, saved);
    }

    method FetchFailed(w: nat, saved: bool)
      requires Live(View(), w)
      modifies this
      ensures View() == AfterFetchFails(old(View()), w, saved)
    {
      SaveResume(workers[w].download, saved);
      SetStatus(workers[w].download, Failed);
      MoveWorker(w, Ended);
    }

    method FailMerge(w: nat, saved: bool)
      requires Live(View(), w)
      modifies this
      ensures View() == MergeFailed(old(View()), w, saved)
    {
      SetStatus(workers[w].download, Failed);
      SaveResume(workers[w].download, saved);
      MoveWorker(w, Ended);
      outputs := outputs - {workers[w].file};
    }

    method FinalMerge(w: nat, raises: bool, saved: bool, unlinks: bool)
      requires Live(View(), w)
      modifies this
      ensures View() == AfterMerge(sys, old(View()), w, raises, saved, unlinks)
    {
      var file, id := workers[w].file, workers[w].download;
      var r := Pipeline.PipelineMergeToDisk(sys.suite, store, sys.manifest(file), objects[id].password);
      if raises || r.error.Some? || r.file.None? {
        FailMerge(w, saved);
        return;
      }
      SetStatus(id, Completed);
      SaveResume(id, saved);
      if file in disk && !unlinks {
        FailMerge(w, saved);
        return;
      }
      MoveWorker(w, Ended);
      disk := disk - {file};
      outputs := outputs[file := r.file.value];
    }

    method WorkerCancelled(w: nat, saved: bool)
      requires Live(View(), w)
      modifies this
      ensures View() == AfterCancelled(old(View()), w, saved)
    {
      if workers[w].phase != Created {
        SetStatus(workers[w].download, Paused);
        SaveResume(workers[w].download, saved);
      }
      MoveWorker(w, Ended);
    }

    /** A restart: memory is lost, and recovery reads the resume files in the order listed. */
    method Restart(listing: seq<Bytes>)
      modifies this
      ensures View() == AfterCrash(old(View()), listing)
    {
      workers, pauses, downloads, tasks := [], [], map[], map[];
      RecoverResumeFiles(listing);
    }

    method Take(step: Step)
      modifies this
      ensures View() == Next(sys, old(View()), step)
    {
      match step {
        case Start(file, password, saved) => StartDownload(file, password, saved);
        case Resume(file, password, known) => ResumeDownload(file, password, known);
        case PauseBegin(file, saved) => PauseDownload(file, saved);
        case PauseTimeout(k) => if Waiting(View(), k) { PauseTimesOut(k); }
        case PauseEnd(k, saved) =>
          if Waiting(View(), k) && workers[pauses[k].worker].phase == Ended { PauseReturns(k, saved); }
        case ClearCompleted => ClearCompleted();
        case ChunkArrives(h, data) => if h !in store { store := store[h := data]; }
        case Crash(listing) => if ListsResumeFiles(View(), listing) { Restart(listing); }
        case Cancelled(w, saved) => if Live(View(), w) && workers[w].cancelled { WorkerCancelled(w, saved); }
        case _ => if Runs(View(), step.worker) { Work(step); }
      }
    }

    /** What a running worker does next, when the step is one of its phase. */
    method Work(step: Step)
      requires step.Begin? || step.FetchOk? || step.FetchFails? || step.MergeEnds?
      requires Runs(View(), step.worker)
      modifies this
      ensures View() == Next(sys, old(View()), step)
    {
      match step {
        case Begin(w, saved) => if workers[w].phase == Created { BeginWorker(w, saved); }
        case FetchOk(w, data, saved) =>
          if workers[w].phase.Fetching? && workers[w].phase.todo != [] { ChunkFetched(w, data, saved); }
        case FetchFails(w, saved) => if workers[w].phase.Fetching? { FetchFailed(w, saved); }
        case MergeEnds(w, raises, saved, unlinks) =>
          if workers[w].phase == Merging { FinalMerge(w, raises, saved, unlinks); }
      }
    }

    /** Any schedule of calls, workers and crashes. */
    method Drive(steps: seq<Step>)
      modifies this
      ensures View() == Run(sys, old(View()), steps)
    {
      for i := 0 to |steps|
        invariant Run(sys, View(), steps[i..]) == Run(sys, old(View()), steps)
      {
        assert steps[i..][1..] == steps[i + 1..];
        Take(steps[i]);
      }
    }

    /** A worker that nothing interrupts, from its first step to its end. */
    method DownloadWorker(w: nat, load: Bytes -> Option<Bytes>)
      requires Runs(View(), w) && workers[w].phase == Created && !workers[w].signalled
      modifies this
      ensures View() == Run(sys, old(View()), [Begin(w, true)] +
                              Outcomes(w, WorkList(sys, old(objects[workers[w].download])), load))
    {
      ghost var end := Run(sys, View(), [Begin(w, true)] +
                           Outcomes(w, WorkList(sys, objects[workers[w].download]), load));
      OnTrackAfterBegin(sys, View(), w, load);
      BeginWorker(w, true);
      while workers[w].phase.Fetching?
        invariant OnTrack(sys, View(), w, load, end)
        decreases TodoOf(View(), w)
      {
        var data := load(workers[w].phase.todo[0].chunkHash);
        if data == None {
          OnTrackFails(sys, View(), w, load, end);
          FetchFailed(w, true);
          return;
        }
        OnTrackAfterFetch(sys, View(), w, load, end);
        ChunkFetched(w, data.value, true);
      }
      OnTrackMerges(sys, View(), w, load, end);
      FinalMerge(w, false, true, true);
    }
  }

  /** The entries of finished files are gone from m, but for those still to remove. */
  ghost predicate Dropping(g: State, toRemove: set<Bytes>, all: map<Bytes, nat>, m: map<Bytes, nat>) {
    && (forall f :: f in toRemove ==> Finished(g, f))
    && (forall f :: f in m <==> f in all && (f in toRemove || !Finished(g, f)))
    && (forall f :: f in m ==> m[f] == all[f])
  }

  lemma DropOne(g: State, toRemove: set<Bytes>, all: map<Bytes, nat>, m: map<Bytes, nat>, f: Bytes)
    requires Dropping(g, toRemove, all, m) && f in toRemove
    ensures Dropping(g, toRemove - {f}, all, m - {f})
  {
  }

  lemma AllDropped(g: State, downloads: map<Bytes, nat>, tasks: map<Bytes, nat>)
    requires Dropping(g, {}, g.downloads, downloads) && Dropping(g, {}, g.tasks, tasks)
    ensures g.(downloads := downloads, tasks := tasks) == AfterClear(g)
  {
    assert downloads == map f | f in g.downloads && !Finished(g, f) :: g.downloads[f];
    assert tasks == map f | f in g.tasks && !Finished(g, f) :: g.tasks[f];
  }

  ghost function TodoOf(g: State, w: nat): seq<Chunker.ChunkInfo> {
    if w < |g.workers| && g.workers[w].phase.Fetching? then g.workers[w].phase.todo else []
  }

  /** The worker goes on undisturbed, and what it still has to do leads to `end`. */
  ghost predicate OnTrack(sys: System, g: State, w: nat, load: Bytes -> Option<Bytes>, end: State) {
    && Runs(g, w) && !g.workers[w].signalled
    && (g.workers[w].phase == Merging || (g.workers[w].phase.Fetching? && g.workers[w].phase.todo != []))
    && Run(sys, g, Outcomes(w, TodoOf(g, w), load)) == end
  }

  lemma OnTrackAfterBegin(sys: System, g: State, w: nat, load: Bytes -> Option<Bytes>)
    requires Runs(g, w) && g.workers[w].phase == Created && !g.workers[w].signalled
    ensures var todo := WorkList(sys, g.objects[g.workers[w].download]);
            OnTrack(sys, Advance(g, w, todo, 0, true), w, load, Run(sys, g, [Begin(w, true)] + Outcomes(w, todo, load)))
  {
    var todo := WorkList(sys, g.objects[g.workers[w].download]);
    AdvanceGoesOn(g, w, todo, 0);
    RunsOne(sys, g, Begin(w, true), Outcomes(w, todo, load));
  }

  lemma OnTrackAfterFetch(sys: System, g: State, w: nat, load: Bytes -> Option<Bytes>, end: State)
    requires OnTrack(sys, g, w, load, end) && g.workers[w].phase.Fetching?
    requires load(g.workers[w].phase.todo[0].chunkHash).Some?
    ensures var h := AfterFetchOk(g, w, load(g.workers[w].phase.todo[0].chunkHash).value, true);
            OnTrack(sys, h, w, load, end) && TodoOf(h, w) == g.workers[w].phase.todo[1..]
  {
    var phase := g.workers[w].phase;
    var data := load(phase.todo[0].chunkHash).value;
    FetchOkGoesOn(g, w, data);
    RunsOne(sys, g, FetchOk(w, data, true), Outcomes(w, phase.todo[1..], load));
  }

  lemma OnTrackFails(sys: System, g: State, w: nat, load: Bytes -> Option<Bytes>, end: State)
    requires OnTrack(sys, g, w, load, end) && g.workers[w].phase.Fetching?
    requires load(g.workers[w].phase.todo[0].chunkHash).None?
    ensures AfterFetchFails(g, w, true) == end
  {
    RunsLast(sys, g, FetchFails(w, true));
  }

  lemma OnTrackMerges(sys: System, g: State, w: nat, load: Bytes -> Option<Bytes>, end: State)
    requires OnTrack(sys, g, w, load, end) && g.workers[w].phase == Merging
    ensures AfterMerge(sys, g, w, false, true, true) == end
  {
    RunsLast(sys, g, MergeEnds(w, false, true, true));
  }
}
