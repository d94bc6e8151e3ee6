/** A download goes on where it stopped: one object per file, and each chunk fetched once for its
    file, unless a start call comes when nothing is missing any more. */
module DownloadContinues {
  import opened Primitives
  import opened Sorting
  import opened Downloads
  import opened DownloadSafety
  import opened DownloadLocality
  import opened DownloadControl
  import opened DownloadHistory
  import opened DownloadOnce
  import opened DownloadEndings
  import opened DownloadPauses
  import opened DownloadEffects
  import Chunker
  import Pipeline

  /** The tracked download is the only object of the file; an untracked file has no resume file. */
  ghost predicate OnlyObject(g: State, file: Bytes) {
    var only :=
      && (forall k :: 0 <= k < |g.objects| && g.objects[k].file == file ==>
            file in g.downloads && g.downloads[file] == k)
      && (file in g.disk ==> file in g.downloads);
    only
  }

  /** A start call on a download of the file that has stopped and misses nothing. */
  predicate StartsOver(g: State, step: Step, file: Bytes) {
    && step.Start? && step.file == file && Tracked(g, file)
    && g.objects[g.downloads[file]].status != Downloading && g.objects[g.downloads[file]].missing == []
  }

  ghost predicate GoesOn(sys: System, g: State, steps: seq<Step>, file: Bytes)
    decreases |steps|
  {
    steps == [] ||
    (!steps[0].Crash? && !steps[0].ClearCompleted? && !StartsOver(g, steps[0], file)
     && GoesOn(sys, Next(sys, g, steps[0]), steps[1..], file))
  }

  // ---- One object per file ----

  /** Objects keep their file, new ones are of other files, and the file's entry stays. */
  ghost predicate NothingNewFor(g: State, h: State, file: Bytes) {
    var same :=
      && |g.objects| <= |h.objects|
      && (forall k :: 0 <= k < |g.objects| ==> h.objects[k].file == g.objects[k].file)
      && (forall k :: |g.objects| <= k < |h.objects| ==> h.objects[k].file != file)
      && SameEntry(g.downloads, h.downloads, file)
      && (file in h.disk ==> file in g.disk || exists k :: 0 <= k < |g.objects| && g.objects[k].file == file);
    same
  }

  lemma OnlyObjectStays(g: State, h: State, file: Bytes)
    requires OnlyObject(g, file) && NothingNewFor(g, h, file)
    ensures OnlyObject(h, file)
  {
  }

  /** One object rewritten in place, and perhaps saved. */
  lemma RewritingIsNothingNew(g: State, h: State, id: nat, d: Download, saved: bool, file: Bytes)
    requires id < |g.objects| && d.file == g.objects[id].file
    requires h.objects == g.objects[id := d] && h.downloads == g.downloads
    requires h.disk == Written(g.disk, d, saved) || h.disk == g.disk
    ensures NothingNewFor(g, h, file)
  {
  }

  lemma AddingIsNothingNew(g: State, h: State, d: Download, other: Bytes, saved: bool, file: Bytes)
    requires other != file && d.file == other && h.objects == g.objects + [d]
    requires h.downloads == g.downloads[other := |g.objects|]
    requires h.disk == Written(g.disk, d, saved) || h.disk == g.disk
    ensures NothingNewFor(g, h, file)
  {
  }

  lemma TouchIsNothingNew(g: State, h: State, w: nat, file: Bytes)
    requires Touches(g, h, w) && UsesItsFile(g, w)
    ensures NothingNewFor(g, h, file)
  {
    var own := g.workers[w].file;
    if file != own {
      assert file in h.disk <==> file in h.disk - {own};
    }
  }

  lemma StartIsNothingNew(sys: System, g: State, other: Bytes, password: Bytes, saved: bool, file: Bytes)
    requires Safe(sys, g) && OnlyObject(g, file) && !StartsOver(g, Start(other, password, saved), file)
    ensures OnlyObject(Next(sys, g, Start(other, password, saved)), file)
  {
    var h := Next(sys, g, Start(other, password, saved));
    if other in g.downloads {
      var id := g.downloads[other];
      if g.objects[id].status == Downloading {
        StartIsIgnored(sys, g, other, password, saved);
      } else if g.objects[id].missing != [] {
        StartContinues(sys, g, other, password, saved);
        RewritingIsNothingNew(g, h, id, h.objects[id], saved, file);
        OnlyObjectStays(g, h, file);
      } else {
        StartAfresh(sys, g, other, password, saved);
        AddingIsNothingNew(g, h, h.objects[|g.objects|], other, saved, file);
        OnlyObjectStays(g, h, file);
      }
    } else if other in g.disk {
      StartOfUntracked(sys, g, other, password, saved, file);
    } else {
      StartAfresh(sys, g, other, password, saved);
      if other != file {
        AddingIsNothingNew(g, h, h.objects[|g.objects|], other, saved, file);
        OnlyObjectStays(g, h, file);
      }
    }
  }

  lemma StartOfUntracked(sys: System, g: State, other: Bytes, password: Bytes, saved: bool, file: Bytes)
    requires Safe(sys, g) && OnlyObject(g, file) && other !in g.downloads && other in g.disk
    ensures OnlyObject(Next(sys, g, Start(other, password, saved)), file)
  {
    var h := Next(sys, g, Start(other, password, saved));
    ResumeFileIsOk(sys, g, other);
    if g.disk[other].status == Downloading {
      StartIsIgnored(sys, g, other, password, saved);
    } else {
      if g.disk[other].missing != [] {
        StartLoadsResumeFile(sys, g, other, password, saved);
      } else {
        StartAfresh(sys, g, other, password, saved);
      }
      AddingIsNothingNew(g, h, h.objects[|g.objects|], other, saved, file);
      OnlyObjectStays(g, h, file);
    }
  }

  lemma ResumeIsNothingNew(sys: System, g: State, other: Bytes, password: Bytes, known: bool, file: Bytes)
    requires Safe(sys, g) && OnlyObject(g, file)
    ensures OnlyObject(Next(sys, g, Resume(other, password, known)), file)
  {
    var h := Next(sys, g, Resume(other, password, known));
    if known && other in g.downloads && g.objects[g.downloads[other]].status != Downloading {
      var id := g.downloads[other];
      ResumeContinues(sys, g, other, password);
      RewritingIsNothingNew(g, h, id, h.objects[id], false, file);
      OnlyObjectStays(g, h, file);
    } else if known && other !in g.downloads && other in g.disk && g.disk[other].status != Downloading {
      ResumeFileIsOk(sys, g, other);
      ResumeLoadsResumeFile(sys, g, other, password);
      AddingIsNothingNew(g, h, h.objects[|g.objects|], other, false, file);
      OnlyObjectStays(g, h, file);
    } else {
      ResumeIsIgnored(sys, g, other, password, known);
    }
  }

  lemma PauseBeginIsNothingNew(sys: System, g: State, other: Bytes, saved: bool, file: Bytes)
    requires Safe(sys, g) && OnlyObject(g, file)
    ensures OnlyObject(Next(sys, g, PauseBegin(other, saved)), file)
  {
    var h := Next(sys, g, PauseBegin(other, saved));
    if other !in g.downloads || g.objects[g.downloads[other]].status != Downloading {
      PauseIsIgnored(sys, g, other, saved);
    } else if other in g.tasks && g.workers[g.tasks[other]].phase != Ended {
      PauseSignalsTheWorker(sys, g, other, saved);
      OnlyObjectStays(g, h, file);
    } else {
      var id := g.downloads[other];
      PauseFinishesAtOnce(sys, g, other, saved);
      RewritingIsNothingNew(g, h, id, h.objects[id], saved, file);
      OnlyObjectStays(g, h, file);
    }
  }

  lemma PauseEndIsNothingNew(sys: System, g: State, k: nat, saved: bool, file: Bytes)
    requires Safe(sys, g) && OnlyObject(g, file)
    ensures OnlyObject(Next(sys, g, PauseEnd(k, saved)), file)
  {
    var h := Next(sys, g, PauseEnd(k, saved));
    if k < |g.pauses| && !g.pauses[k].returned {
      PauseReturns(sys, g, k, saved);
      if g.workers[g.pauses[k].worker].phase == Ended {
        var id := g.pauses[k].download;
        RewritingIsNothingNew(g, h, id, h.objects[id], saved, file);
        OnlyObjectStays(g, h, file);
      }
    }
  }

  lemma WorkerIsNothingNew(sys: System, g: State, step: Step, file: Bytes)
    requires step.Begin? || step.FetchOk? || step.FetchFails? || step.MergeEnds? || step.Cancelled?
    requires Safe(sys, g) && OnlyObject(g, file)
    ensures OnlyObject(Next(sys, g, step), file)
  {
    if Live(g, step.worker) && Next(sys, g, step) != g {
      WorkersUseTheirFile(sys, g, step.worker);
      if step.Begin? || step.FetchOk? {
        FetchingTouches(sys, g, step);
      } else {
        EndingTouches(sys, g, step);
      }
      TouchIsNothingNew(g, Next(sys, g, step), step.worker, file);
      OnlyObjectStays(g, Next(sys, g, step), file);
    }
  }

  lemma StepKeepsOnlyObject(sys: System, g: State, step: Step, file: Bytes)
    requires Safe(sys, g) && OnlyObject(g, file)
    requires !step.Crash? && !step.ClearCompleted? && !StartsOver(g, step, file)
    ensures OnlyObject(Next(sys, g, step), file)
  {
    match step
    case Start(other, password, saved) => StartIsNothingNew(sys, g, other, password, saved, file);
    case Resume(other, password, known) => ResumeIsNothingNew(sys, g, other, password, known, file);
    case PauseBegin(other, saved) => PauseBeginIsNothingNew(sys, g, other, saved, file);
    case PauseTimeout(k) =>
      if k < |g.pauses| && !g.pauses[k].returned {
        PauseTimeoutCancels(sys, g, k);
      }
    case PauseEnd(k, saved) => PauseEndIsNothingNew(sys, g, k, saved, file);
    case ChunkArrives(_, _) =>
    case _ => WorkerIsNothingNew(sys, g, step, file);
  }

  lemma {:induction false} RunsKeepOnlyObject(sys: System, g: State, steps: seq<Step>, file: Bytes)
    requires Safe(sys, g) && OnlyObject(g, file) && GoesOn(sys, g, steps, file)
    ensures Safe(sys, Run(sys, g, steps)) && OnlyObject(Run(sys, g, steps), file)
    decreases |steps|
  {
    if steps != [] {
      StepIsSafe(sys, g, steps[0]);
      StepKeepsOnlyObject(sys, g, steps[0], file);
      RunsKeepOnlyObject(sys, Next(sys, g, steps[0]), steps[1..], file);
    }
  }

  // ---- Each chunk is fetched once for its file ----

  /** However often a file is paused, resumed and started while it misses chunks, no chunk is
      received twice for it: one object keeps its progress throughout. */
  lemma FetchedOncePerFile(sys: System, store: Pipeline.Store, steps: seq<Step>, file: Bytes)
    requires CalmRun(sys, Init(store), steps) && GoesOn(sys, Init(store), steps, file)
    requires forall f :: DistinctIndices(sys.manifest(f).chunks)
    ensures var g := Run(sys, Init(store), steps);
            && (forall a, b :: 0 <= a < b < |g.fetched| && g.fetched[a].file == g.fetched[b].file == file ==>
                  g.fetched[a].index != g.fetched[b].index)
            && (forall j, k | 0 <= j < |g.objects| && 0 <= k < |g.objects| ::
                  g.objects[j].file == g.objects[k].file == file ==> j == k)
  {
    var g := Run(sys, Init(store), steps);
    RunsKeepOnlyObject(sys, Init(store), steps, file);
    EachChunkIsFetchedOnce(sys, store, steps);
    assert AllOnce(sys, Init(store));
    CalmRunsFetchOnce(sys, Init(store), steps);
    forall a, b | 0 <= a < b < |g.fetched| && g.fetched[a].file == g.fetched[b].file == file
      ensures g.fetched[a].index != g.fetched[b].index
    {
      assert g.fetched[a] in g.fetched && g.fetched[b] in g.fetched;
    }
  }

  // ---- Starting over fetches again ----

  /** A worker waits for chunk c alone, at the end of its object's missing list. */
  ghost predicate LastFetch(sys: System, g: State, w: nat, c: Chunker.ChunkInfo) {
    var last :=
      && Safe(sys, g) && w < |g.workers| && g.workers[w].phase == Fetching([c], 0) && !g.workers[w].cancelled
      && g.workers[w].download < |g.objects| && g.objects[g.workers[w].download].missing == [c.index];
    last
  }

  lemma LastChunkArrives(sys: System, g: State, w: nat, c: Chunker.ChunkInfo, data: Bytes)
    requires LastFetch(sys, g, w, c)
    ensures var h := Next(sys, g, FetchOk(w, data, true));
            var id := g.workers[w].download;
            && Safe(sys, h) && h.workers == g.workers[w := g.workers[w].(phase := Merging)]
            && |h.objects| == |g.objects| && h.objects[id].missing == [] && h.objects[id].file == g.objects[id].file
            && h.downloads == g.downloads && h.fetched == g.fetched + [Fetch(id, g.workers[w].file, c.index)]
  {
    FetchedChunkIsKept(sys, g, w, data, true);
    StepIsSafe(sys, g, FetchOk(w, data, true));
    assert [c][1..] == [];
    assert Filter(j => j != c.index, [c.index]) == Filter(j => j != c.index, []);
  }

  lemma MergeRaises(sys: System, g: State, w: nat)
    requires Safe(sys, g) && w < |g.workers| && g.workers[w].phase == Merging && !g.workers[w].cancelled
    ensures g.workers[w].download < |g.objects|
    ensures var h := Next(sys, g, MergeEnds(w, true, true, true));
            var id := g.workers[w].download;
            && Safe(sys, h) && h.objects == g.objects[id := g.objects[id].(status := Failed)]
            && |h.workers| == |g.workers| && h.downloads == g.downloads && h.fetched == g.fetched
  {
    WorkersUseTheirFile(sys, g, w);
    FailedMergeEnds(sys, g, w, true, true, true);
    StepIsSafe(sys, g, MergeEnds(w, true, true, true));
  }

  /** A new object for the file, and its worker waiting for the one chunk. */
  lemma StartsOverFromScratch(sys: System, g: State, file: Bytes, c: Chunker.ChunkInfo)
    requires Safe(sys, g) && sys.manifest(file).chunks == [c] && c.index == 0
    requires Tracked(g, file) && g.objects[g.downloads[file]].status == Failed
    requires g.objects[g.downloads[file]].missing == []
    ensures var h := Next(sys, Next(sys, g, Start(file, [], true)), Begin(|g.workers|, true));
            && LastFetch(sys, h, |g.workers|, c) && h.workers[|g.workers|].file == file
            && h.workers[|g.workers|].download == |g.objects| && h.fetched == g.fetched
  {
    var a := Next(sys, g, Start(file, [], true));
    StartAfresh(sys, g, file, [], true);
    StepIsSafe(sys, g, Start(file, [], true));
    assert a.objects[|g.objects|] == FreshDownload(sys, file, []);
    assert a.objects[|g.objects|].missing == [0];
    OneChunkToFetch(sys, file, c);
    StepIsSafe(sys, a, Begin(|g.workers|, true));
    AdvanceTakes(a, |g.workers|, [c], 0, true);
  }

  /** The steps by which the merge of a received chunk fails and the file is started over. */
  function FailAndStartOver(file: Bytes, data: Bytes): seq<Step> {
    [FetchOk(0, data, true), MergeEnds(0, true, true, true), Start(file, [], true), Begin(1, true),
     FetchOk(1, data, true)]
  }

  lemma RunOfFive(sys: System, g: State, a: Step, b: Step, c: Step, d: Step, e: Step)
    ensures Run(sys, g, [a, b, c, d, e]) == Next(sys, Next(sys, Next(sys, Next(sys, Next(sys, g, a), b), c), d), e)
  {
    assert [a, b, c, d, e] == [a, b] + [c, d, e];
    RunConcat(sys, g, [a, b], [c, d, e]);
    RunTwo(sys, g, a, b);
    RunThree(sys, Next(sys, Next(sys, g, a), b), c, d, e);
  }

  /** The condition is needed: when the merge has failed nothing is missing, so a start call
      begins afresh and the chunk is received a second time. */
  lemma StartingOverFetchesAgain(sys: System, store: Pipeline.Store, file: Bytes, c: Chunker.ChunkInfo, data: Bytes)
    requires sys.manifest(file).chunks == [c] && c.index == 0
    ensures Run(sys, Init(store), Opening(file, []) + FailAndStartOver(file, data)).fetched ==
            [Fetch(0, file, 0), Fetch(1, file, 0)]
  {
    var g := Run(sys, Init(store), Opening(file, []));
    OneChunkToFetch(sys, file, c);
    FirstDownload(sys, store, file, []);
    RunConcat(sys, Init(store), Opening(file, []), FailAndStartOver(file, data));
    RunOfFive(sys, g, FetchOk(0, data, true), MergeEnds(0, true, true, true), Start(file, [], true), Begin(1, true),
              FetchOk(1, data, true));
    OpeningFetches(sys, store, file, c);
    LastChunkArrives(sys, g, 0, c, data);
    var a := Next(sys, g, FetchOk(0, data, true));
    MergeRaises(sys, a, 0);
    var b := Next(sys, a, MergeEnds(0, true, true, true));
    StartsOverFromScratch(sys, b, file, c);
    LastChunkArrives(sys, Next(sys, Next(sys, b, Start(file, [], true)), Begin(1, true)), 1, c, data);
  }

  lemma OpeningFetches(sys: System, store: Pipeline.Store, file: Bytes, c: Chunker.ChunkInfo)
    requires sys.manifest(file).chunks == [c] && c.index == 0
    ensures var g := Run(sys, Init(store), Opening(file, []));
            && LastFetch(sys, g, 0, c) && g.fetched == [] && Tracked(g, file) && g.downloads[file] == 0
            && |g.objects| == 1 && |g.workers| == 1 && g.workers[0].file == file && g.workers[0].download == 0
  {
    OneChunkToFetch(sys, file, c);
    FirstDownload(sys, store, file, []);
    var a := Next(sys, Init(store), Start(file, [], true));
    RunTwo(sys, Init(store), Start(file, [], true), Begin(0, true));
    assert FreshDownload(sys, file, []).missing == [0];
    AdvanceTakes(a, 0, [c], 0, true);
  }
}
