/** From whatever was completed before, a worker that is left alone and served the right chunks
    finishes with the original file. */
module DownloadRestores {
  import opened Primitives
  import opened Sorting
  import opened Downloads
  import opened DownloadSafety
  import opened DownloadLocality
  import opened DownloadControl
  import opened DownloadEndings
  import Chunker
  import Pipeline
  import FileRoundTrip

  /** What the store holds under the manifest's hashes is what loading them would give. */
  ghost predicate Honest(store: Pipeline.Store, chunks: seq<Chunker.ChunkInfo>, load: Bytes -> Option<Bytes>) {
    forall c :: c in chunks ==>
      load(c.chunkHash).Some? && (c.chunkHash in store ==> store[c.chunkHash] == load(c.chunkHash).value)
  }

  ghost predicate Numbered(chunks: seq<Chunker.ChunkInfo>) {
    forall i :: 0 <= i < |chunks| ==> chunks[i].index == i
  }

  /** When the merge begins, the store holds the right chunk for every manifest entry. */
  lemma MergeFindsEverything(sys: System, g: State, w: nat, load: Bytes -> Option<Bytes>)
    requires Safe(sys, g) && Live(g, w) && g.workers[w].phase == Merging
    requires Numbered(sys.manifest(g.workers[w].file).chunks)
    requires Honest(g.store, sys.manifest(g.workers[w].file).chunks, load)
    ensures forall c :: c in sys.manifest(g.workers[w].file).chunks ==>
              c.chunkHash in g.store && load(c.chunkHash) == Some(g.store[c.chunkHash])
  {
    var d := g.objects[g.workers[w].download];
    var chunks := sys.manifest(g.workers[w].file).chunks;
    WorkerIsOk(sys, g, w);
    ObjectIsOk(sys, g, g.workers[w].download);
    forall c | c in chunks
      ensures c.chunkHash in g.store
    {
      var i :| 0 <= i < |chunks| && chunks[i] == c;
      assert Listed(chunks, i);
      assert i in d.missing || i in d.completed;
      assert Held(sys, g.store, d.file, i);
    }
  }

  /** The merge would return `data` from any store that holds what loading the chunks gives. */
  ghost predicate Mergeable(sys: System, m: Chunker.FileManifest, password: Bytes, load: Bytes -> Option<Bytes>,
                            data: Bytes) {
    forall store: Pipeline.Store ::
      (forall c :: c in m.chunks ==> c.chunkHash in store && load(c.chunkHash) == Some(store[c.chunkHash])) ==>
      Pipeline.PipelineMerged(sys.suite, store, m, password) == Chunker.DiskOutcome(None, Some(data))
  }

  ghost predicate Finishes(g: State, w: nat, h: State, data: Bytes)
    requires Live(g, w)
  {
    && |h.objects| > g.workers[w].download && h.objects[g.workers[w].download].status == Completed
    && g.workers[w].file in h.outputs && h.outputs[g.workers[w].file] == data
  }

  lemma MergeFinishes(sys: System, g: State, w: nat, load: Bytes -> Option<Bytes>, data: Bytes)
    requires Safe(sys, g) && Runs(g, w) && g.workers[w].phase == Merging
    requires var m := sys.manifest(g.workers[w].file);
             && Numbered(m.chunks) && Honest(g.store, m.chunks, load)
             && Mergeable(sys, m, g.objects[g.workers[w].download].password, load, data)
    ensures Finishes(g, w, Run(sys, g, [MergeEnds(w, false, true, true)]), data)
  {
    WorkersUseTheirFile(sys, g, w);
    MergeFindsEverything(sys, g, w, load);
    MergeSucceeds(sys, g, w);
    RunsLast(sys, g, MergeEnds(w, false, true, true));
  }

  lemma FetchedStaysHonest(sys: System, g: State, w: nat, load: Bytes -> Option<Bytes>)
    requires Safe(sys, g) && Live(g, w) && g.workers[w].phase.Fetching?
    requires Honest(g.store, sys.manifest(g.workers[w].file).chunks, load)
    ensures g.workers[w].phase.todo != [] && load(g.workers[w].phase.todo[0].chunkHash).Some?
    ensures var h := g.workers[w].phase.todo[0].chunkHash;
            var store := if h in g.store then g.store else g.store[h := load(h).value];
            Honest(store, sys.manifest(g.workers[w].file).chunks, load)
  {
    FirstChunk(sys, g, w);
  }

  lemma {:induction false} FetchingFinishes(sys: System, g: State, w: nat, load: Bytes -> Option<Bytes>, data: Bytes)
    requires Safe(sys, g) && Runs(g, w) && !g.workers[w].signalled && g.workers[w].phase.Fetching?
    requires var m := sys.manifest(g.workers[w].file);
             && Numbered(m.chunks) && Honest(g.store, m.chunks, load)
             && Mergeable(sys, m, g.objects[g.workers[w].download].password, load, data)
    ensures Finishes(g, w, Run(sys, g, Outcomes(w, g.workers[w].phase.todo, load)), data)
    decreases |g.workers[w].phase.todo|
  {
    FetchedStaysHonest(sys, g, w, load);
    var todo := g.workers[w].phase.todo;
    var chunk := load(todo[0].chunkHash).value;
    var h := AfterFetchOk(g, w, chunk, true);
    FetchOkGoesOn(g, w, chunk);
    FetchOkIsSafe(sys, g, w, chunk, true);
    RunsOne(sys, g, FetchOk(w, chunk, true), Outcomes(w, todo[1..], load));
    if todo[1..] == [] {
      MergeFinishes(sys, h, w, load, data);
    } else {
      FetchingFinishes(sys, h, w, load, data);
    }
  }

  lemma BeginGoesOn(sys: System, g: State, w: nat)
    requires Safe(sys, g) && Runs(g, w) && !g.workers[w].signalled && g.workers[w].phase == Created
    ensures var todo := WorkList(sys, g.objects[g.workers[w].download]);
            var h := Next(sys, g, Begin(w, true));
            && Safe(sys, h) && SameJob(g, h, w) && h.store == g.store
            && h.workers[w].phase == if todo == [] then Merging else Fetching(todo, 0)
  {
    AdvanceGoesOn(g, w, WorkList(sys, g.objects[g.workers[w].download]), 0);
    StepIsSafe(sys, g, Begin(w, true));
  }

  lemma LeftAloneFinishes(sys: System, g: State, w: nat, load: Bytes -> Option<Bytes>, data: Bytes)
    requires Safe(sys, g) && Runs(g, w) && !g.workers[w].signalled && g.workers[w].phase == Created
    requires var m := sys.manifest(g.workers[w].file);
             && Numbered(m.chunks) && Honest(g.store, m.chunks, load)
             && Mergeable(sys, m, g.objects[g.workers[w].download].password, load, data)
    ensures var todo := WorkList(sys, g.objects[g.workers[w].download]);
            Finishes(g, w, Run(sys, g, [Begin(w, true)] + Outcomes(w, todo, load)), data)
  {
    var todo := WorkList(sys, g.objects[g.workers[w].download]);
    var h := Next(sys, g, Begin(w, true));
    BeginGoesOn(sys, g, w);
    RunsOne(sys, g, Begin(w, true), Outcomes(w, todo, load));
    if todo == [] {
      MergeFinishes(sys, h, w, load, data);
    } else {
      FetchingFinishes(sys, h, w, load, data);
    }
  }

  /** `chunk_file` on one node; on another any progress so far, an undisturbed worker, and
      chunks that are what their hashes name: the download completes, and its output is the file. */
  lemma LeftAloneRestoresTheFile(sys: System, g: State, w: nat, load: Bytes -> Option<Bytes>, name: string, data: Bytes,
                                 size: int, r: Chunker.Randomness)
    requires Chunker.WellDrawn(r) && Lawful(sys.suite) && size != 0
    requires Safe(sys, g) && Runs(g, w) && !g.workers[w].signalled && g.workers[w].phase == Created
    requires var password := g.objects[g.workers[w].download].password;
             var datas := Chunker.EncodeAll(sys.suite, Chunker.Pieces(data, size), password, r);
             && sys.manifest(g.workers[w].file) ==
                Chunker.ManifestOf(sys.suite, name, data, size, datas, password != [], "zstd")
             && forall d :: d in datas ==> load(sys.suite.hash(d)) == Some(d)
    requires Honest(g.store, sys.manifest(g.workers[w].file).chunks, load)
    ensures var todo := WorkList(sys, g.objects[g.workers[w].download]);
            Finishes(g, w, Run(sys, g, [Begin(w, true)] + Outcomes(w, todo, load)), data)
  {
    var password := g.objects[g.workers[w].download].password;
    RightChunksMerge(sys, name, data, size, password, r, load);
    LeftAloneFinishes(sys, g, w, load, data);
  }

  /** A store that holds right chunks merges to the file. */
  lemma RightStoreMerges(s: Suite, name: string, data: Bytes, size: int, password: Bytes, r: Chunker.Randomness,
                         datas: seq<Bytes>, load: Bytes -> Option<Bytes>, store: Pipeline.Store)
    requires Lawful(s) && Chunker.WellDrawn(r) && size != 0
    requires datas == Chunker.EncodeAll(s, Chunker.Pieces(data, size), password, r)
    requires forall d :: d in datas ==> load(s.hash(d)) == Some(d)
    requires forall c :: c in Chunker.ManifestOf(s, name, data, size, datas, password != [], "zstd").chunks ==>
               c.chunkHash in store && load(c.chunkHash) == Some(store[c.chunkHash])
    ensures Pipeline.PipelineMerged(s, store, Chunker.ManifestOf(s, name, data, size, datas, password != [], "zstd"),
                                    password) == Chunker.DiskOutcome(None, Some(data))
  {
    var m := Chunker.ManifestOf(s, name, data, size, datas, password != [], "zstd");
    forall p | p in Chunker.Zip(m.chunks, datas)
      ensures p.0.chunkHash in store && store[p.0.chunkHash] == p.1
    {
      var i :| 0 <= i < |datas| && p == (m.chunks[i], datas[i]);
      assert m.chunks[i] in m.chunks && datas[i] in datas;
    }
    FileRoundTrip.EveryReaderRoundTrips(s, m, datas, name, data, size, password, r, store);
  }

  /** The pipeline's merge of right chunks is the file. */
  lemma RightChunksMerge(sys: System, name: string, data: Bytes, size: int, password: Bytes,
                         r: Chunker.Randomness, load: Bytes -> Option<Bytes>)
    requires Lawful(sys.suite) && Chunker.WellDrawn(r) && size != 0
    requires var datas := Chunker.EncodeAll(sys.suite, Chunker.Pieces(data, size), password, r);
             forall d :: d in datas ==> load(sys.suite.hash(d)) == Some(d)
    ensures var datas := Chunker.EncodeAll(sys.suite, Chunker.Pieces(data, size), password, r);
            Mergeable(sys, Chunker.ManifestOf(sys.suite, name, data, size, datas, password != [], "zstd"), password,
                      load, data)
  {
    var s := sys.suite;
    var datas := Chunker.EncodeAll(s, Chunker.Pieces(data, size), password, r);
    var m := Chunker.ManifestOf(s, name, data, size, datas, password != [], "zstd");
    forall store: Pipeline.Store | forall c :: c in m.chunks ==>
      c.chunkHash in store && load(c.chunkHash) == Some(store[c.chunkHash])
      ensures Pipeline.PipelineMerged(s, store, m, password) == Chunker.DiskOutcome(None, Some(data))
    {
      RightStoreMerges(s, name, data, size, password, r, datas, load, store);
    }
  }
}
