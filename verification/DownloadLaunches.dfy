/** Launching a worker while a pause of its file is in progress: exactly when that can lead to two
    live workers, and exactly when a start call works at all. */
module DownloadLaunches {
  import opened Primitives
  import opened Downloads
  import opened DownloadSafety
  import opened DownloadLocality
  import opened DownloadControl
  import opened DownloadEndings

  ghost predicate LiveWorkerOf(g: State, file: Bytes, w: nat) {
    w < |g.workers| && g.workers[w].file == file && g.workers[w].phase != Ended
  }

  ghost predicate TwoLiveWorkers(g: State, file: Bytes) {
    exists v, w :: LiveWorkerOf(g, file, v) && LiveWorkerOf(g, file, w) && v != w
  }

  predicate IsPendingFor(g: State, file: Bytes, k: nat) {
    var pending := k < |g.pauses| && g.pauses[k].file == file && !g.pauses[k].returned;
    pending
  }

  lemma PendingPause(g: State, file: Bytes) returns (k: nat)
    requires PausePending(g, file)
    ensures IsPendingFor(g, file, k)
  {
    k :| 0 <= k < |g.pauses| && g.pauses[k].file == file && !g.pauses[k].returned;
  }

  // ---- From a launch under a pause to two workers ----

  /** A pause of the file whose worker has ended can return at any time. */
  ghost predicate CanReturn(g: State, k: nat) {
    var ends := Waiting(g, k) && g.workers[g.pauses[k].worker].phase == Ended;
    ends
  }

  /** Worker n was launched while pauses of its file wait for workers that have ended. */
  ghost predicate Overlapped(g: State, file: Bytes, n: nat) {
    var overlapped :=
      && Tracked(g, file) && LiveWorkerOf(g, file, n)
      && (forall k: nat :: IsPendingFor(g, file, k) ==> CanReturn(g, k));
    overlapped
  }

  lemma PauseReturnKeepsOverlap(sys: System, g: State, file: Bytes, n: nat, k: nat)
    requires Overlapped(g, file, n) && IsPendingFor(g, file, k)
    ensures var h := Next(sys, g, PauseEnd(k, true));
            && Overlapped(h, file, n) && file !in h.tasks
            && h.pauses == g.pauses[k := g.pauses[k].(returned := true)]
  {
    var h := Next(sys, g, PauseEnd(k, true));
    assert h == AfterPauseEnd(g, k, true);
    assert h.workers == g.workers && h.downloads == g.downloads && |h.objects| == |g.objects|;
    forall j: nat | IsPendingFor(h, file, j)
      ensures CanReturn(h, j)
    {
      assert IsPendingFor(g, file, j);
    }
  }

  lemma CalmCons(sys: System, g: State, step: Step, rest: seq<Step>)
    ensures Run(sys, g, [step] + rest) == Run(sys, Next(sys, g, step), rest)
    ensures CalmRun(sys, g, [step] + rest) <==> Calm(g, step) && CalmRun(sys, Next(sys, g, step), rest)
  {
    assert ([step] + rest)[1..] == rest;
  }

  /** A pause call that finds no task marks the download paused at once. */
  lemma PauseWithoutTask(sys: System, g: State, file: Bytes)
    requires Tracked(g, file) && file !in g.tasks
    ensures var h := Next(sys, g, PauseBegin(file, false));
            && h.workers == g.workers && h.pauses == g.pauses && Tracked(h, file)
            && h.objects[h.downloads[file]].status != Downloading
  {
  }

  /** With no task and no pause in progress, pausing and resuming launches a second worker. */
  lemma PauseAndResumeDoubles(sys: System, g: State, file: Bytes, n: nat)
    requires Overlapped(g, file, n) && file !in g.tasks && !PausePending(g, file)
    ensures var steps := [PauseBegin(file, false), Resume(file, [], true)];
            CalmRun(sys, g, steps) && TwoLiveWorkers(Run(sys, g, steps), file)
  {
    var a := Next(sys, g, PauseBegin(file, false));
    PauseWithoutTask(sys, g, file);
    PendingAfterTouch(g, a, file);
    ResumeLaunches(sys, a, file, []);
    var h := Next(sys, a, Resume(file, [], true));
    assert LiveWorkerOf(h, file, n) && LiveWorkerOf(h, file, |g.workers|);
    CalmCons(sys, a, Resume(file, [], true), []);
    CalmCons(sys, g, PauseBegin(file, false), [Resume(file, [], true)]);
    assert [PauseBegin(file, false), Resume(file, [], true)] == [PauseBegin(file, false)] + [Resume(file, [], true)];
  }

  /** The pauses that are still in progress return, one after the other, and then a pause and a
      resume launch the second worker. */
  lemma {:induction false} PausesReturn(sys: System, g: State, file: Bytes, n: nat, k: nat) returns (steps: seq<Step>)
    requires Overlapped(g, file, n) && file !in g.tasks && k <= |g.pauses|
    requires forall j: nat :: IsPendingFor(g, file, j) ==> k <= j
    ensures CalmRun(sys, g, steps) && TwoLiveWorkers(Run(sys, g, steps), file)
    decreases |g.pauses| - k
  {
    if k == |g.pauses| {
      if PausePending(g, file) {
        var j := PendingPause(g, file);
      }
      PauseAndResumeDoubles(sys, g, file, n);
      steps := [PauseBegin(file, false), Resume(file, [], true)];
    } else if IsPendingFor(g, file, k) {
      PauseReturnKeepsOverlap(sys, g, file, n, k);
      var h := Next(sys, g, PauseEnd(k, true));
      assert forall j: nat :: IsPendingFor(h, file, j) ==> IsPendingFor(g, file, j) && j != k;
      steps := PausesReturn(sys, h, file, n, k + 1);
      CalmCons(sys, g, PauseEnd(k, true), steps);
      steps := [PauseEnd(k, true)] + steps;
    } else {
      assert forall j: nat :: IsPendingFor(g, file, j) ==> j != k;
      steps := PausesReturn(sys, g, file, n, k + 1);
    }
  }

  /** A worker launched over a pause in progress can get company. */
  lemma OverlapDoubles(sys: System, g: State, file: Bytes, n: nat, k: nat) returns (steps: seq<Step>)
    requires Overlapped(g, file, n) && IsPendingFor(g, file, k)
    ensures CalmRun(sys, g, steps) && TwoLiveWorkers(Run(sys, g, steps), file)
  {
    PauseReturnKeepsOverlap(sys, g, file, n, k);
    steps := PausesReturn(sys, Next(sys, g, PauseEnd(k, true)), file, n, 0);
    CalmCons(sys, g, PauseEnd(k, true), steps);
    steps := [PauseEnd(k, true)] + steps;
  }

  // ---- A launch under a pause ----

  lemma TrackAndLaunch(g: State, file: Bytes, id: nat, d: Download, saved: bool)
    requires id <= |g.objects|
    ensures var h := Launch(Save(Track(g, file, id, d), id, saved), file, id);
            && Tracked(h, file) && h.pauses == g.pauses && |h.objects| >= |g.objects|
            && h.workers == g.workers + [Worker(file, id, Created, false, false)]
  {
  }

  ghost predicate Launched(g: State, h: State, file: Bytes) {
    var launched :=
      && Tracked(h, file) && h.pauses == g.pauses && |h.objects| >= |g.objects|
      && LiveWorkerOf(h, file, |g.workers|)
      && |h.workers| == |g.workers| + 1 && h.workers[..|g.workers|] == g.workers;
    launched
  }

  lemma StartLaunches(sys: System, g: State, file: Bytes, password: Bytes, saved: bool)
    requires Launches(g, Start(file, password, saved))
    ensures Launched(g, AfterStart(sys, g, file, password, saved), file)
  {
    var existing := Existing(g, file);
    if existing.Some? && existing.value.missing != [] {
      TrackAndLaunch(g, file, Slot(g, file), existing.value.(status := Downloading, password := password), saved);
    } else {
      TrackAndLaunch(g, file, |g.objects|, FreshDownload(sys, file, password), saved);
    }
  }

  lemma LaunchOutcome(sys: System, g: State, step: Step)
    requires Launches(g, step)
    ensures Launched(g, Next(sys, g, step), step.file)
  {
    match step
    case Start(file, password, saved) => StartLaunches(sys, g, file, password, saved);
    case Resume(file, password, _) =>
      var d := Existing(g, file).value.(status := Downloading, password := password);
      TrackAndLaunch(g, file, Slot(g, file), d, false);
  }

  /** What is being paused when a worker can be launched are workers that have ended. */
  lemma PendingPausesCanReturn(sys: System, g: State, step: Step, k: nat)
    requires Safe(sys, g) && Launches(g, step) && Orderly(sys, g, step.file) && IsPendingFor(g, step.file, k)
    ensures CanReturn(g, k)
  {
    PausesUseTheirFile(sys, g, k);
    ReferencesOf(sys, g, step.file);
    NoLiveWorker(sys, g, step.file, g.pauses[k].worker);
  }

  lemma LaunchOverlaps(sys: System, g: State, step: Step)
    requires Safe(sys, g) && Launches(g, step) && Orderly(sys, g, step.file)
    ensures Overlapped(Next(sys, g, step), step.file, |g.workers|)
  {
    var h := Next(sys, g, step);
    LaunchOutcome(sys, g, step);
    forall k: nat | IsPendingFor(h, step.file, k)
      ensures CanReturn(h, k)
    {
      PendingPausesCanReturn(sys, g, step, k);
      var w := g.pauses[k].worker;
      assert h.workers[..|g.workers|][w] == g.workers[w];
    }
  }

  /** A calm run, after the launching call, with two live workers on the file at its end. */
  ghost predicate Doubles(sys: System, g: State, step: Step, rest: seq<Step>)
    requires Launches(g, step)
  {
    CalmRun(sys, Next(sys, g, step), rest) && TwoLiveWorkers(Run(sys, Next(sys, g, step), rest), step.file)
  }

  lemma OrderlyFilesHaveOneWorker(sys: System, g: State, file: Bytes)
    requires Orderly(sys, g, file)
    ensures !TwoLiveWorkers(g, file)
  {
    if v, w :| LiveWorkerOf(g, file, v) && LiveWorkerOf(g, file, w) && v != w {
      LiveWorkerIsCurrent(sys, g, v);
      LiveWorkerIsCurrent(sys, g, w);
    }
  }

  /** From any state that calm runs reach, a single launch can lead to two live workers on its
      file, with every later launch calm, if and only if a pause of the file is in progress. */
  lemma LaunchCanDoubleIffPausePending(sys: System, g: State, step: Step)
    requires AllOrderly(sys, g) && Launches(g, step)
    ensures (exists rest :: Doubles(sys, g, step, rest)) <==> PausePending(g, step.file)
  {
    var file := step.file;
    assert Orderly(sys, g, file);
    if PausePending(g, file) {
      var k := PendingPause(g, file);
      LaunchOutcome(sys, g, step);
      LaunchOverlaps(sys, g, step);
      var rest := OverlapDoubles(sys, Next(sys, g, step), file, |g.workers|, k);
      assert Doubles(sys, g, step, rest);
    } else if rest :| Doubles(sys, g, step, rest) {
      CalmCons(sys, g, step, rest);
      CalmRunsAreOrderly(sys, g, [step] + rest);
      OrderlyFilesHaveOneWorker(sys, Run(sys, Next(sys, g, step), rest), file);
    }
  }

  // ---- When a start call works at all ----

  /** Nothing tracks the file, but its resume file says "downloading". */
  predicate LeftBehind(g: State, file: Bytes) {
    file !in g.downloads && file in g.disk && g.disk[file].status == Downloading
  }

  /** The tracked download still says "downloading", but its worker has ended. */
  predicate OutlivesItsWorker(g: State, file: Bytes) {
    && Tracked(g, file) && g.objects[g.downloads[file]].status == Downloading
    && file in g.tasks && g.tasks[file] < |g.workers| && g.workers[g.tasks[file]].phase == Ended
  }

  lemma LiveWorkerIsTracked(sys: System, g: State, file: Bytes)
    requires Safe(sys, g) && Orderly(sys, g, file) && HasWorker(g, file)
    ensures !LeftBehind(g, file) && !OutlivesItsWorker(g, file)
  {
    var w :| 0 <= w < |g.workers| && g.workers[w].file == file && g.workers[w].phase != Ended;
    LiveWorkerIsCurrent(sys, g, w);
  }

  /** With or without pauses in progress, a start call leaves the file with a live worker if and
      only if neither its resume file nor its tracked entry says "downloading" without one. */
  lemma StartWorksExactly(sys: System, g: State, file: Bytes, password: Bytes, saved: bool)
    requires Safe(sys, g) && Orderly(sys, g, file)
    ensures HasWorker(Next(sys, g, Start(file, password, saved)), file) <==>
            !LeftBehind(g, file) && !OutlivesItsWorker(g, file)
  {
    var existing := Existing(g, file);
    ReferencesOf(sys, g, file);
    if existing.None? || existing.value.status != Downloading {
      LaunchedWorkerIsLive(sys, g, file, password, saved);
    } else {
      assert Next(sys, g, Start(file, password, saved)) == g;
      if HasWorker(g, file) {
        LiveWorkerIsTracked(sys, g, file);
      } else if Tracked(g, file) {
        assert g.workers[g.tasks[file]].file == file;
      }
    }
  }

  /** Such an entry exists only under a pause, and becomes startable when that returns. */
  lemma PauseReturnFreesEntry(sys: System, g: State, file: Bytes)
    returns (k: nat)
    requires Safe(sys, g) && Orderly(sys, g, file) && OutlivesItsWorker(g, file)
    ensures IsPendingFor(g, file, k) && CanReturn(g, k)
    ensures var h := Next(sys, g, PauseEnd(k, true));
            Orderly(sys, h, file) && !LeftBehind(h, file) && !OutlivesItsWorker(h, file)
  {
    k := PendingPause(g, file);
    PausesUseTheirFile(sys, g, k);
    PauseIsCurrent(sys, g, k);
    StepIsOrderly(sys, g, PauseEnd(k, true), file);
    PausedEntry(g, k, true);
  }
}
