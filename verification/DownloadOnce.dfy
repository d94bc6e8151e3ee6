/** No download object receives the same chunk twice, across any pauses and resumes: a worker has yet
    to fetch only chunks that its object misses, each once, because its list was drawn up from the
    missing numbers, each received number leaves them, and at most one worker of a file is live, so
    that no other takes a number from under it. */
module DownloadOnce {
  import opened Primitives
  import opened Sorting
  import opened Downloads
  import opened DownloadSafety
  import opened DownloadLocality
  import opened DownloadControl
  import opened DownloadHistory
  import Chunker
  import Pipeline

  ghost predicate DistinctIndices(chunks: seq<Chunker.ChunkInfo>) {
    forall i, j :: 0 <= i < j < |chunks| ==> chunks[i].index != chunks[j].index
  }

  /** A worker has yet to fetch only missing chunks, each once. */
  ghost predicate WorkIsFresh(g: State, w: nat)
    requires w < |g.workers|
  {
    g.workers[w].phase.Fetching? ==>
      && g.workers[w].download < |g.objects|
      && DistinctIndices(g.workers[w].phase.todo)
      && forall c :: c in g.workers[w].phase.todo ==> c.index in g.objects[g.workers[w].download].missing
  }

  ghost predicate FileIsFresh(g: State, file: Bytes) {
    forall w {:trigger WorkIsFresh(g, w)} :: 0 <= w < |g.workers| && g.workers[w].file == file ==> WorkIsFresh(g, w)
  }

  // ---- The work list ----

  lemma {:induction false} InsertKeepsDistinct(c: Chunker.ChunkInfo, s: seq<Chunker.ChunkInfo>)
    requires DistinctIndices(s) && forall x :: x in s ==> x.index != c.index
    ensures DistinctIndices(Insert(Chunker.InfoByIndex, c, s))
    ensures forall x :: x in Insert(Chunker.InfoByIndex, c, s) <==> x == c || x in s
  {
    if s != [] && !Chunker.InfoByIndex(c, s[0]) {
      var rest := Insert(Chunker.InfoByIndex, c, s[1..]);
      InsertKeepsDistinct(c, s[1..]);
      forall j | 0 <= j < |rest|
        ensures rest[j].index != s[0].index
      {
        assert rest[j] in rest;
        assert s[0] in s;
      }
    }
  }

  lemma {:induction false} SortKeepsDistinct(s: seq<Chunker.ChunkInfo>)
    requires DistinctIndices(s)
    ensures DistinctIndices(Sort(Chunker.InfoByIndex, s))
  {
    if s != [] {
      SortKeepsDistinct(s[1..]);
      forall x | x in Sort(Chunker.InfoByIndex, s[1..])
        ensures x.index != s[0].index
      {
        SortMember(Chunker.InfoByIndex, s[1..], x);
      }
      InsertKeepsDistinct(s[0], Sort(Chunker.InfoByIndex, s[1..]));
    }
  }

  lemma {:induction false} FilterKeepsDistinct(keep: Chunker.ChunkInfo -> bool, s: seq<Chunker.ChunkInfo>)
    requires DistinctIndices(s)
    ensures DistinctIndices(Filter(keep, s))
  {
    if s != [] {
      var rest := Filter(keep, s[1..]);
      FilterKeepsDistinct(keep, s[1..]);
      FilterMembers(keep, s[1..]);
      forall j | 0 <= j < |rest|
        ensures rest[j].index != s[0].index
      {
        assert rest[j] in s[1..];
      }
    }
  }

  lemma WorkListIsFresh(sys: System, d: Download)
    requires Split(d) && DistinctIndices(sys.manifest(d.file).chunks)
    ensures DistinctIndices(WorkList(sys, d))
    ensures forall c :: c in WorkList(sys, d) ==> c.index in d.missing
  {
    WorkListIsOk(sys, d);
    SortKeepsDistinct(sys.manifest(d.file).chunks);
    FilterKeepsDistinct(Lists(d.missing), Sort(Chunker.InfoByIndex, sys.manifest(d.file).chunks));
  }

  // ---- Steps keep work fresh ----

  lemma FreshFrame(sys: System, g: State, h: State, file: Bytes)
    requires Safe(sys, g) && FileIsFresh(g, file) && SameFor(g, h, file)
    ensures FileIsFresh(h, file)
  {
    forall w | 0 <= w < |h.workers| && h.workers[w].file == file
      ensures WorkIsFresh(h, w)
    {
      assert h.workers[w] == g.workers[w];
      assert WorkIsFresh(g, w);
      WorkersUseTheirFile(sys, g, w);
    }
  }

  lemma FreshWhenWorkStays(g: State, h: State, file: Bytes)
    requires FileIsFresh(g, file) && WorkStays(g, h)
    ensures FileIsFresh(h, file)
  {
    forall w | 0 <= w < |h.workers| && h.workers[w].file == file
      ensures WorkIsFresh(h, w)
    {
      assert WorkIsFresh(g, w);
    }
  }

  lemma FreshAfterTouch(sys: System, g: State, h: State, w: nat)
    requires Touches(g, h, w) && Orderly(sys, g, g.workers[w].file)
    requires WorkIsFresh(h, w)
    ensures FileIsFresh(h, g.workers[w].file)
  {
    LiveWorkerIsCurrent(sys, g, w);
    forall v | 0 <= v < |h.workers| && h.workers[v].file == g.workers[w].file
      ensures WorkIsFresh(h, v)
    {
      LiveWorkerIsCurrent(sys, g, v);
    }
  }

  lemma AdvanceIsFresh(g: State, w: nat, todo: seq<Chunker.ChunkInfo>, sinceFlush: nat, saved: bool)
    requires Live(g, w) && DistinctIndices(todo)
    requires forall c :: c in todo ==> c.index in g.objects[g.workers[w].download].missing
    ensures var h := Advance(g, w, todo, sinceFlush, saved);
            |h.workers| == |g.workers| && WorkIsFresh(h, w)
  {
    AdvanceOutcome(g, w, todo, sinceFlush, saved);
  }

  lemma BeginIsFresh(sys: System, g: State, w: nat, saved: bool)
    requires Safe(sys, g) && Live(g, w) && Orderly(sys, g, g.workers[w].file)
    requires DistinctIndices(sys.manifest(g.workers[w].file).chunks)
    ensures FileIsFresh(Advance(g, w, WorkList(sys, g.objects[g.workers[w].download]), 0, saved), g.workers[w].file)
  {
    var d := g.objects[g.workers[w].download];
    WorkersUseTheirFile(sys, g, w);
    ObjectIsOk(sys, g, g.workers[w].download);
    WorkListIsFresh(sys, d);
    AdvanceTouches(g, w, WorkList(sys, d), 0, saved);
    AdvanceIsFresh(g, w, WorkList(sys, d), 0, saved);
    FreshAfterTouch(sys, g, Advance(g, w, WorkList(sys, d), 0, saved), w);
  }

  lemma TailIsFresh(d: Download, todo: seq<Chunker.ChunkInfo>)
    requires todo != [] && DistinctIndices(todo) && Split(d) && 0 <= todo[0].index < d.total
    requires forall c :: c in todo ==> c.index in d.missing
    ensures DistinctIndices(todo[1..])
    ensures forall c :: c in todo[1..] ==> c.index in MarkCompleted(d, todo[0].index).missing
  {
    MarkKeepsSplit(d, todo[0].index);
    forall c | c in todo[1..]
      ensures c in todo && c.index != todo[0].index
    {
      var j :| 0 <= j < |todo[1..]| && todo[1..][j] == c;
      assert todo[j + 1] == c;
    }
  }

  lemma FetchOkIsFresh(sys: System, g: State, w: nat, data: Bytes, saved: bool)
    requires Safe(sys, g) && Live(g, w) && Orderly(sys, g, g.workers[w].file) && WorkIsFresh(g, w)
    requires g.workers[w].phase.Fetching? && g.workers[w].phase.todo != []
    ensures FileIsFresh(AfterFetchOk(g, w, data, saved), g.workers[w].file)
  {
    var phase, d := g.workers[w].phase, g.objects[g.workers[w].download];
    var todo := phase.todo;
    WorkersUseTheirFile(sys, g, w);
    FirstChunk(sys, g, w);
    TailIsFresh(d, todo);
    ReceiveOutcome(g, w, data, saved);
    AdvanceIsFresh(Receive(g, w, data, saved), w, todo[1..],
                   if phase.sinceFlush + 1 >= FLUSH_INTERVAL then 0 else phase.sinceFlush + 1, saved);
    FetchOkTouches(g, w, data, saved);
    FreshAfterTouch(sys, g, AfterFetchOk(g, w, data, saved), w);
  }

  lemma WorkerIsFresh(sys: System, g: State, step: Step)
    requires step.Begin? || step.FetchOk? || step.FetchFails? || step.MergeEnds? || step.Cancelled?
    requires Safe(sys, g) && Live(g, step.worker) && Orderly(sys, g, g.workers[step.worker].file)
    requires FileIsFresh(g, g.workers[step.worker].file)
    requires DistinctIndices(sys.manifest(g.workers[step.worker].file).chunks)
    ensures FileIsFresh(Next(sys, g, step), g.workers[step.worker].file)
  {
    WorkersUseTheirFile(sys, g, step.worker);
    assert WorkIsFresh(g, step.worker);
    match step
    case Begin(w, saved) => BeginIsFresh(sys, g, w, saved);
    case FetchOk(w, data, saved) =>
      if g.workers[w].phase.Fetching? && g.workers[w].phase.todo != [] {
        FetchOkIsFresh(sys, g, w, data, saved);
      }
    case FetchFails(w, saved) => FetchFailsIsFresh(sys, g, w, saved);
    case MergeEnds(w, raises, saved, unlinks) => MergeIsFresh(sys, g, w, raises, saved, unlinks);
    case Cancelled(w, saved) => CancelledIsFresh(sys, g, w, saved);
  }

  lemma EndedIsFresh(sys: System, g: State, h: State, w: nat)
    requires Touches(g, h, w) && Orderly(sys, g, g.workers[w].file) && h.workers[w].phase == Ended
    ensures FileIsFresh(h, g.workers[w].file)
  {
    FreshAfterTouch(sys, g, h, w);
  }

  lemma FetchFailsIsFresh(sys: System, g: State, w: nat, saved: bool)
    requires UsesItsFile(g, w) && Orderly(sys, g, g.workers[w].file)
    ensures FileIsFresh(AfterFetchFails(g, w, saved), g.workers[w].file)
  {
    FetchFailsTouches(g, w, saved);
    EndedIsFresh(sys, g, AfterFetchFails(g, w, saved), w);
  }

  lemma MergeIsFresh(sys: System, g: State, w: nat, raises: bool, saved: bool, unlinks: bool)
    requires UsesItsFile(g, w) && Orderly(sys, g, g.workers[w].file)
    ensures FileIsFresh(AfterMerge(sys, g, w, raises, saved, unlinks), g.workers[w].file)
  {
    MergeTouches(sys, g, w, raises, saved, unlinks);
    MergeOutcome(sys, g, w, raises, saved, unlinks);
    EndedIsFresh(sys, g, AfterMerge(sys, g, w, raises, saved, unlinks), w);
  }

  lemma CancelledIsFresh(sys: System, g: State, w: nat, saved: bool)
    requires UsesItsFile(g, w) && Orderly(sys, g, g.workers[w].file)
    ensures FileIsFresh(AfterCancelled(g, w, saved), g.workers[w].file)
  {
    CancelledTouches(g, w, saved);
    EndedIsFresh(sys, g, AfterCancelled(g, w, saved), w);
  }

  lemma LaunchIsFresh(sys: System, g: State, file: Bytes, id: nat, d: Download, saved: bool)
    requires Orderly(sys, g, file) && id <= |g.objects|
    requires !Tracked(g, file) || g.objects[g.downloads[file]].status != Downloading
    ensures FileIsFresh(Launch(Save(Track(g, file, id, d), id, saved), file, id), file)
  {
    var h := Launch(Save(Track(g, file, id, d), id, saved), file, id);
    forall w | 0 <= w < |h.workers| && h.workers[w].file == file
      ensures WorkIsFresh(h, w)
    {
      if w < |g.workers| {
        NoLiveWorker(sys, g, file, w);
      }
    }
  }

  lemma CallIsFresh(sys: System, g: State, step: Step)
    requires step.Start? || step.Resume?
    requires Safe(sys, g) && Orderly(sys, g, step.file) && FileIsFresh(g, step.file)
    ensures FileIsFresh(Next(sys, g, step), step.file)
  {
    var file := step.file;
    var existing := Existing(g, file);
    if existing.None? || existing.value.status != Downloading {
      if existing.Some? {
        LaunchIsFresh(sys, g, file, Slot(g, file), existing.value.(status := Downloading, password := step.password),
                      step.Start? && step.saved);
      }
      if step.Start? {
        LaunchIsFresh(sys, g, file, |g.objects|, FreshDownload(sys, file, step.password), step.saved);
      }
    }
  }

  lemma PauseIsFresh(sys: System, g: State, step: Step, file: Bytes)
    requires step.PauseBegin? || step.PauseTimeout? || step.PauseEnd? || step.ClearCompleted?
    requires FileIsFresh(g, file)
    ensures FileIsFresh(Next(sys, g, step), file)
  {
    PauseStays(sys, g, step);
    FreshWhenWorkStays(g, Next(sys, g, step), file);
  }

  lemma CrashIsFresh(sys: System, g: State, listing: seq<Bytes>, file: Bytes)
    requires Safe(sys, g) && ListsResumeFiles(g, listing)
    ensures FileIsFresh(AfterCrash(g, listing), file)
  {
    RecoverTracks(sys, g.(workers := [], pauses := [], downloads := map[], tasks := map[]), listing, file);
  }

  lemma StepIsFresh(sys: System, g: State, step: Step, file: Bytes)
    requires Safe(sys, g) && Orderly(sys, g, file) && FileIsFresh(g, file)
    requires DistinctIndices(sys.manifest(file).chunks)
    ensures FileIsFresh(Next(sys, g, step), file)
  {
    if step.Crash? {
      if ListsResumeFiles(g, step.listing) {
        CrashIsFresh(sys, g, step.listing, file);
      }
    } else if step.PauseBegin? || step.PauseTimeout? || step.PauseEnd? || step.ClearCompleted? {
      PauseIsFresh(sys, g, step, file);
    } else if StepFile(g, step) != Some(file) {
      StepsAreLocal(sys, g, step, file);
      FreshFrame(sys, g, Next(sys, g, step), file);
    } else if step.Start? || step.Resume? {
      CallIsFresh(sys, g, step);
    } else if Live(g, step.worker) {
      WorkerIsFresh(sys, g, step);
    }
  }

  // ---- The log ----

  /** No object received a chunk twice. */
  ghost predicate NoRepeats(fetched: seq<Fetch>) {
    forall a, b :: 0 <= a < b < |fetched| ==>
      fetched[a].download != fetched[b].download || fetched[a].index != fetched[b].index
  }

  lemma FetchOkRepeatsNothing(sys: System, g: State, w: nat, data: Bytes, saved: bool)
    requires Safe(sys, g) && HistoryOk(g.objects, g.fetched) && NoRepeats(g.fetched)
    requires Live(g, w) && g.workers[w].phase.Fetching? && g.workers[w].phase.todo != [] && WorkIsFresh(g, w)
    ensures NoRepeats(AfterFetchOk(g, w, data, saved).fetched)
  {
    var c := g.workers[w].phase.todo[0];
    FirstChunk(sys, g, w);
    assert c in g.workers[w].phase.todo;
    FetchOkOutcome(g, w, data, saved);
    forall a | 0 <= a < |g.fetched|
      ensures g.fetched[a].download != g.workers[w].download || g.fetched[a].index != c.index
    {
      assert g.fetched[a] in g.fetched;
    }
  }

  lemma StepRepeatsNothing(sys: System, g: State, step: Step)
    requires Safe(sys, g) && HistoryOk(g.objects, g.fetched) && NoRepeats(g.fetched)
    requires step.FetchOk? && step.worker < |g.workers| ==> WorkIsFresh(g, step.worker)
    ensures NoRepeats(Next(sys, g, step).fetched)
  {
    if !step.FetchOk? {
      StepKeeps(sys, g, step);
    } else if Runs(g, step.worker) && g.workers[step.worker].phase.Fetching? &&
      g.workers[step.worker].phase.todo != [] {
      FetchOkRepeatsNothing(sys, g, step.worker, step.data, step.saved);
    }
  }

  // ---- Runs ----

  ghost predicate AllOnce(sys: System, g: State) {
    && AllOrderly(sys, g) && HistoryOk(g.objects, g.fetched) && NoRepeats(g.fetched)
    && forall file {:trigger FileIsFresh(g, file)} :: FileIsFresh(g, file)
  }

  lemma {:induction false} CalmRunsFetchOnce(sys: System, g: State, steps: seq<Step>)
    requires AllOnce(sys, g) && CalmRun(sys, g, steps) && forall file :: DistinctIndices(sys.manifest(file).chunks)
    ensures AllOnce(sys, Run(sys, g, steps))
    decreases |steps|
  {
    if steps != [] {
      var step := steps[0];
      StepIsSafe(sys, g, step);
      if step.FetchOk? && step.worker < |g.workers| {
        assert FileIsFresh(g, g.workers[step.worker].file);
        assert WorkIsFresh(g, step.worker);
      }
      StepKeepsHistory(sys, g, step);
      StepRepeatsNothing(sys, g, step);
      forall file
        ensures Orderly(sys, Next(sys, g, step), file) && FileIsFresh(Next(sys, g, step), file)
      {
        assert Orderly(sys, g, file) && FileIsFresh(g, file);
        StepIsOrderly(sys, g, step, file);
        StepIsFresh(sys, g, step, file);
      }
      CalmRunsFetchOnce(sys, Next(sys, g, steps[0]), steps[1..]);
    }
  }

  /** Without overlapping control calls, however often a download is paused and resumed, no object
      receives a chunk twice; and without a restart or a clear, an object's completed chunks are
      exactly those it received, so each was fetched once. */
  lemma EachChunkIsFetchedOnce(sys: System, store: Pipeline.Store, steps: seq<Step>)
    requires CalmRun(sys, Init(store), steps) && forall file :: DistinctIndices(sys.manifest(file).chunks)
    ensures NoRepeats(Run(sys, Init(store), steps).fetched)
    ensures (forall n :: 0 <= n < |steps| ==> !steps[n].Crash? && !steps[n].ClearCompleted?) ==>
              var g := Run(sys, Init(store), steps);
              forall k, i :: 0 <= k < |g.objects| ==>
                (i in g.objects[k].completed <==> HasEntry(g.fetched, k, i))
  {
    assert AllOnce(sys, Init(store));
    CalmRunsFetchOnce(sys, Init(store), steps);
    if forall n :: 0 <= n < |steps| ==> !steps[n].Crash? && !steps[n].ClearCompleted? {
      CompletedIsReceived(sys, store, steps);
    }
  }
}
